/**
 * The emulator's reassembly of length-prefixed messages from whatever chunks TCP delivers, and what becomes of each message
 * (src/Foxsimile.cpp:149-280).
 */
module MessageAccumulator {
  import opened Options
  import opened Bytes
  import opened Systems
  import opened CommandDeck
  import opened Foxsimile

  // ---- one message ----

  /** Responses learned beforehand, or made from memory maps. */
  datatype Strategy = Lookup(responses: map<seq<Byte>, seq<Byte>>) | MemoryMap

  datatype Setup = Setup(strategy: Strategy, deck: seq<System>, managers: seq<System>)

  /** Listening; ended by an exception that nothing catches; or past undefined behaviour. */
  datatype Status = Listening | Ended | Lost

  /** What has been accumulated, handed to get_response, and sent; the memory maps; and whether the emulator lives. */
  datatype Session = Session(accumulated: seq<Byte>, handed: seq<seq<Byte>>, sent: seq<seq<Byte>>, mmaps: Memories, status: Status)

  /** get_response: it catches the failing lookup of a response that was never learned, but not what make_reply throws. */
  function Response(e: Setup, mmaps: Memories, message: seq<Byte>, garbage: Byte): (Answer, Memories) {
    match e.strategy
    case Lookup(responses) => (Answer(if message in responses then responses[message] else []), mmaps)
    case MemoryMap => Reply(e.deck, e.managers, mmaps, message, garbage)
  }

  /** garbage(i) is the byte read past the transaction id of message i. */
  function Handled(e: Setup, s: Session, message: seq<Byte>, left: seq<Byte>, garbage: nat -> Byte): Session {
    var (answer, mmaps) := Response(e, s.mmaps, message, garbage(|s.handed|));
    var t := s.(handed := s.handed + [message], mmaps := mmaps);
    match answer
    case Threw => t.(accumulated := left, status := Ended)
    case Undefined => t.(accumulated := left, status := Lost)
    case Answer(bytes) => t.(accumulated := [], sent := if bytes == [] then t.sent else t.sent + [bytes])
  }

  // ---- one chunk ----

  /** The message that has been accumulated, if any, and what is left of it while it is being answered. */
  function Accumulated(a: seq<Byte>): Option<(seq<Byte>, seq<Byte>)> {
    if |a| >= ETHER_HEADER_SIZE then
      var length := Unsplat4(a[8..12]);
      if |a| - ETHER_HEADER_SIZE >= length then Some((a[..ETHER_HEADER_SIZE + length], a[length..])) else None
    else if |a| == 2 && a[0] != 0 then Some((a, a))
    else None
  }

  function Received(e: Setup, s: Session, chunk: seq<Byte>, garbage: nat -> Byte): Session {
    if s.status != Listening then s
    else
      match Accumulated(s.accumulated + chunk)
      case None => s.(accumulated := s.accumulated + chunk)
      case Some((message, left)) => Handled(e, s, message, left, garbage)
  }

  class Receiver {
    const strategy: Strategy
    const responder: Responder
    var accumulator: seq<Byte>
    var handed: seq<seq<Byte>>
    var sent: seq<seq<Byte>>
    var status: Status

    constructor (strategy: Strategy, responder: Responder)
      ensures this.strategy == strategy && this.responder == responder
      ensures State() == Session([], [], [], responder.mmaps, Listening)
    {
      this.strategy, this.responder := strategy, responder;
      accumulator, handed, sent, status := [], [], [], Listening;
    }

    function State(): Session
      reads this, responder
    {
      Session(accumulator, handed, sent, responder.mmaps, status)
    }

    function SetUp(): Setup { Setup(strategy, responder.deck, responder.managers) }

    method GetResponse(message: seq<Byte>, garbage: Byte) returns (answer: Answer)
      requires AllSpaceWire(responder.managers)
      modifies responder
      ensures (answer, responder.mmaps) == Response(SetUp(), old(responder.mmaps), message, garbage)
    {
      match strategy {
        case Lookup(responses) => answer := Answer(if message in responses then responses[message] else []);
        case MemoryMap => answer := responder.MakeReply(message, garbage);
      }
    }

    /** Hands over a message; false when answering it does not return. */
    method Respond(message: seq<Byte>, garbage: nat -> Byte) returns (returned: bool)
      requires AllSpaceWire(responder.managers) && status == Listening
      modifies this`handed, this`sent, this`status, responder
      ensures var t := Handled(SetUp(), old(State()), message, accumulator, garbage);
        State() == if returned then t.(accumulated := accumulator) else t
      ensures returned <==> status == Listening
    {
      var answer := GetResponse(message, garbage(|handed|));
      handed := handed + [message];
      if answer.Threw? {
        status := Ended;
        return false;
      }
      if answer.Undefined? {
        status := Lost;
        return false;
      }
      if answer.bytes != [] {
        sent := sent + [answer.bytes];
      }
      return true;
    }

    method AwaitFullBuffer(chunk: seq<Byte>, garbage: nat -> Byte)
      requires AllSpaceWire(responder.managers)
      modifies this, responder
      ensures State() == Received(SetUp(), old(State()), chunk, garbage)
    {
      hide Response, Unsplat4;
      if status != Listening {
        return;
      }
      accumulator := accumulator + chunk;
      if |accumulator| >= ETHER_HEADER_SIZE {
        var head, foot := accumulator[8..12], accumulator[12..];
        var length := UnsplatFrom4Bytes(head);
        if |foot| >= length {
          var working := accumulator[..12 + length];
          accumulator := accumulator[length..];
          var returned := Respond(working, garbage);
          if !returned {
            return;
          }
          accumulator := [];
        }
      } else if |accumulator| == 2 {
        if accumulator[0] != 0 {
          var returned := Respond(accumulator, garbage);
          if !returned {
            return;
          }
          accumulator := [];
        }
      }
    }

    /** A whole sequence of chunks. */
    method ReceiveChunks(chunks: seq<seq<Byte>>, garbage: nat -> Byte)
      requires AllSpaceWire(responder.managers)
      modifies this, responder
      ensures State() == ReceivedAll(SetUp(), old(State()), chunks, garbage)
    {
      for i := 0 to |chunks|
        invariant State() == ReceivedAll(SetUp(), old(State()), chunks[..i], garbage)
      {
        ReceivedOneMore(SetUp(), old(State()), chunks[..i], chunks[i], garbage);
        assert chunks[..i + 1] == chunks[..i] + [chunks[i]];
        AwaitFullBuffer(chunks[i], garbage);
      }
      assert chunks[..|chunks|] == chunks;
    }
  }

  // ---- sequences of chunks ----

  function ReceivedAll(e: Setup, s: Session, chunks: seq<seq<Byte>>, garbage: nat -> Byte): Session
    decreases |chunks|
  {
    if chunks == [] then s else ReceivedAll(e, Received(e, s, chunks[0], garbage), chunks[1..], garbage)
  }

  lemma {:induction false} ReceivedAppend(e: Setup, s: Session, a: seq<seq<Byte>>, b: seq<seq<Byte>>, garbage: nat -> Byte)
    ensures ReceivedAll(e, s, a + b, garbage) == ReceivedAll(e, ReceivedAll(e, s, a, garbage), b, garbage)
    decreases |a|
  {
    hide Received;
    if a == [] {
      assert a + b == b;
    } else {
      assert (a + b)[0] == a[0] && (a + b)[1..] == a[1..] + b;
      ReceivedAppend(e, Received(e, s, a[0], garbage), a[1..], b, garbage);
    }
  }

  lemma ReceivedOneMore(e: Setup, s: Session, chunks: seq<seq<Byte>>, chunk: seq<Byte>, garbage: nat -> Byte)
    ensures ReceivedAll(e, s, chunks + [chunk], garbage) == Received(e, ReceivedAll(e, s, chunks, garbage), chunk, garbage)
  {
    hide Received;
    ReceivedAppend(e, s, chunks, [chunk], garbage);
    assert [chunk][1..] == [];
  }

  /** Nothing wakes an emulator that has ended. */
  lemma {:induction false} NothingWakes(e: Setup, s: Session, chunks: seq<seq<Byte>>, garbage: nat -> Byte)
    requires s.status != Listening
    ensures ReceivedAll(e, s, chunks, garbage) == s
    decreases |chunks|
  {
    if chunks != [] {
      NothingWakes(e, s, chunks[1..], garbage);
    }
  }

  lemma {:induction false} HandedOnlyGrow(e: Setup, s: Session, chunks: seq<seq<Byte>>, garbage: nat -> Byte)
    ensures s.handed <= ReceivedAll(e, s, chunks, garbage).handed
    decreases |chunks|
  {
    hide Response, Accumulated;
    if chunks != [] {
      HandedOnlyGrow(e, Received(e, s, chunks[0], garbage), chunks[1..], garbage);
    }
  }

  // ---- messages in chunks ----

  predicate IsMessage(m: seq<Byte>) {
    |m| >= ETHER_HEADER_SIZE && |m| == ETHER_HEADER_SIZE + Unsplat4(m[8..12])
  }

  function Joined(chunks: seq<seq<Byte>>): seq<Byte> {
    if chunks == [] then [] else Joined(chunks[..|chunks| - 1]) + chunks[|chunks| - 1]
  }

  /** The message, cut into non-empty chunks. */
  ghost predicate Split(m: seq<Byte>, chunks: seq<seq<Byte>>) {
    |chunks| > 0 && Joined(chunks) == m && forall i :: 0 <= i < |chunks| ==> chunks[i] != []
  }

  /** Some cut falls after the second byte of a message that does not begin with zero: it passes for a housekeeping message. */
  ghost predicate Mistaken(m: seq<Byte>, chunks: seq<seq<Byte>>) {
    m != [] && m[0] != 0 && exists i :: 0 <= i <= |chunks| && |Joined(chunks[..i])| == 2
  }

  lemma {:induction false} PrefixOfJoined(chunks: seq<seq<Byte>>, i: nat)
    requires i <= |chunks| && forall j :: 0 <= j < |chunks| ==> chunks[j] != []
    ensures |Joined(chunks[..i])| <= |Joined(chunks)| && Joined(chunks[..i]) == Joined(chunks)[..|Joined(chunks[..i])|]
    ensures i < |chunks| ==> |Joined(chunks[..i])| < |Joined(chunks)|
  {
    if i == |chunks| {
      assert chunks[..i] == chunks;
    } else {
      assert chunks[..|chunks| - 1][..i] == chunks[..i];
      PrefixOfJoined(chunks[..|chunks| - 1], i);
    }
  }

  /** What an exception leaves of a message in the accumulator. */
  function LeftOf(m: seq<Byte>): seq<Byte> { if |m| >= ETHER_HEADER_SIZE then m[|m| - ETHER_HEADER_SIZE..] else m }

  predicate AtRest(s: Session) { s.status == Listening && s.accumulated == [] }

  /** Until the last chunk nothing is handed over, and everything received is kept. */
  lemma {:induction false} NothingBeforeLast(e: Setup, s: Session, m: seq<Byte>, chunks: seq<seq<Byte>>, i: nat, garbage: nat -> Byte)
    requires AtRest(s) && IsMessage(m) && Split(m, chunks) && !Mistaken(m, chunks) && i < |chunks|
    ensures ReceivedAll(e, s, chunks[..i], garbage) == s.(accumulated := Joined(chunks[..i]))
  {
    hide ReceivedAll, Handled;
    if i == 0 {
      NoChunks(e, s, garbage);
      assert chunks[..0] == [];
    } else {
      NothingBeforeLast(e, s, m, chunks, i - 1, garbage);
      assert chunks[..i] == chunks[..i - 1] + [chunks[i - 1]];
      ReceivedOneMore(e, s, chunks[..i - 1], chunks[i - 1], garbage);
      assert chunks[..i][..i - 1] == chunks[..i - 1];
      PrefixOfJoined(chunks, i);
      var a := Joined(chunks[..i]);
      if |a| >= 12 { assert a[8..12] == m[8..12]; }
      assert |a| == 2 ==> a[0] == 0;
    }
  }

  lemma NoChunks(e: Setup, s: Session, garbage: nat -> Byte)
    ensures ReceivedAll(e, s, [], garbage) == s
  {
  }

  lemma HandedAtLast(e: Setup, s: Session, m: seq<Byte>, chunks: seq<seq<Byte>>, garbage: nat -> Byte)
    requires AtRest(s) && IsMessage(m) && Split(m, chunks) && !Mistaken(m, chunks)
    ensures ReceivedAll(e, s, chunks, garbage) == Handled(e, s, m, LeftOf(m), garbage)
  {
    hide ReceivedAll, Handled;
    var n := |chunks| - 1;
    NothingBeforeLast(e, s, m, chunks, n, garbage);
    assert chunks == chunks[..n] + [chunks[n]];
    ReceivedOneMore(e, s, chunks[..n], chunks[n], garbage);
    assert Accumulated(m) == Some((m, LeftOf(m))) by { assert m[..|m|] == m; }
    SameHandled(e, s, Joined(chunks[..n]), m, garbage);
  }

  lemma SameHandled(e: Setup, s: Session, a: seq<Byte>, m: seq<Byte>, garbage: nat -> Byte)
    ensures Handled(e, s.(accumulated := a), m, LeftOf(m), garbage) == Handled(e, s, m, LeftOf(m), garbage)
  {
    hide Response;
  }

  lemma {:induction false} ChunksCount(chunks: seq<seq<Byte>>)
    requires forall j :: 0 <= j < |chunks| ==> chunks[j] != []
    ensures |Joined(chunks)| >= |chunks|
  {
    if chunks != [] {
      ChunksCount(chunks[..|chunks| - 1]);
    }
  }

  lemma JoinedFew(chunks: seq<seq<Byte>>, i: nat)
    requires 1 <= i <= 2 && i <= |chunks|
    ensures i == 1 ==> chunks[..i] == [chunks[0]] && Joined(chunks[..i]) == chunks[0]
    ensures i == 2 ==> chunks[..i] == [chunks[0]] + [chunks[1]] && Joined(chunks[..i]) == chunks[0] + chunks[1]
  {
    assert chunks[..1][..0] == [];
    assert Joined(chunks[..1]) == chunks[0];
    if i == 2 { assert chunks[..2][..1] == chunks[..1]; }
  }

  lemma FirstMistake(e: Setup, s: Session, m: seq<Byte>, chunks: seq<seq<Byte>>, i: nat, garbage: nat -> Byte)
    requires AtRest(s) && IsMessage(m) && Split(m, chunks) && m[0] != 0 && i <= |chunks| && |Joined(chunks[..i])| == 2
    ensures ReceivedAll(e, s, chunks[..i], garbage).handed == s.handed + [m[..2]]
  {
    hide ReceivedAll, Response;
    PrefixOfJoined(chunks, i);
    ChunksCount(chunks[..i]);
    JoinedFew(chunks, i);
    NoChunks(e, s, garbage);
    ReceivedOneMore(e, s, [], chunks[0], garbage);
    assert [] + [chunks[0]] == [chunks[0]] && [] + chunks[0] == chunks[0];
    var two := Joined(chunks[..i]);
    assert two == m[..2] && two[0] != 0;
    if i == 2 {
      assert Received(e, s, chunks[0], garbage) == s.(accumulated := chunks[0]);
      ReceivedOneMore(e, s, [chunks[0]], chunks[1], garbage);
    }
  }

  lemma MistakenDiffers(e: Setup, s: Session, m: seq<Byte>, chunks: seq<seq<Byte>>, garbage: nat -> Byte)
    requires AtRest(s) && IsMessage(m) && Split(m, chunks) && Mistaken(m, chunks)
    ensures ReceivedAll(e, s, chunks, garbage).handed != s.handed + [m]
    ensures Handled(e, s, m, LeftOf(m), garbage).handed == s.handed + [m]
  {
    hide ReceivedAll, Response;
    var i :| 0 <= i <= |chunks| && |Joined(chunks[..i])| == 2;
    FirstMistake(e, s, m, chunks, i, garbage);
    assert chunks == chunks[..i] + chunks[i..];
    ReceivedAppend(e, s, chunks[..i], chunks[i..], garbage);
    HandedOnlyGrow(e, ReceivedAll(e, s, chunks[..i], garbage), chunks[i..], garbage);
    hide Split, Mistaken, Joined;
    assert (s.handed + [m])[|s.handed|] == m && (s.handed + [m[..2]])[|s.handed|] == m[..2];
    assert |m[..2]| == 2 < |m|;
  }

  /**
   * One message, however cut: it is handed over once, whole, and with nothing left over, exactly if no cut lets its first
   * two bytes pass for a housekeeping message.
   */
  lemma HandedExactly(e: Setup, s: Session, m: seq<Byte>, chunks: seq<seq<Byte>>, garbage: nat -> Byte)
    requires AtRest(s) && IsMessage(m) && Split(m, chunks)
    ensures ReceivedAll(e, s, chunks, garbage) == Handled(e, s, m, LeftOf(m), garbage) <==> !Mistaken(m, chunks)
  {
    hide ReceivedAll, Handled;
    if Mistaken(m, chunks) {
      MistakenDiffers(e, s, m, chunks, garbage);
    } else {
      HandedAtLast(e, s, m, chunks, garbage);
    }
  }

  // ---- sequences of messages ----

  function Flattened(cuts: seq<seq<seq<Byte>>>): seq<seq<Byte>> {
    if cuts == [] then [] else Flattened(cuts[..|cuts| - 1]) + cuts[|cuts| - 1]
  }

  /** Messages handed over whole, one after another, for as long as the emulator lives. */
  function HandledAll(e: Setup, s: Session, messages: seq<seq<Byte>>, garbage: nat -> Byte): Session {
    if messages == [] then s
    else
      var n := |messages| - 1;
      var t := HandledAll(e, s, messages[..n], garbage);
      if t.status != Listening then t else Handled(e, t, messages[n], LeftOf(messages[n]), garbage)
  }

  /** The session in the middle of message i. */
  function Between(s: Session, part: seq<Byte>): Session { if s.status == Listening then s.(accumulated := part) else s }

  /**
   * Chunk invariance: messages sent one after another, each cut anyhow but never two in one chunk, are handed over as if
   * they came whole, once each, in order, each at its last chunk, for as long as the emulator lives.
   */
  lemma {:induction false} ChunkInvariance(
      e: Setup, s: Session, messages: seq<seq<Byte>>, cuts: seq<seq<seq<Byte>>>, garbage: nat -> Byte)
    requires AtRest(s) && |cuts| == |messages|
    requires forall i :: 0 <= i < |messages| ==>
               IsMessage(messages[i]) && Split(messages[i], cuts[i]) && !Mistaken(messages[i], cuts[i])
    ensures ReceivedAll(e, s, Flattened(cuts), garbage) == HandledAll(e, s, messages, garbage)
    ensures forall i, j :: 0 <= i < |messages| && 0 <= j < |cuts[i]| ==>
              ReceivedAll(e, s, Flattened(cuts[..i]) + cuts[i][..j], garbage)
              == Between(HandledAll(e, s, messages[..i], garbage), Joined(cuts[i][..j]))
  {
    hide ReceivedAll, Handled, IsMessage, Split, Mistaken;
    if messages == [] {
      NoChunks(e, s, garbage);
    } else {
      var n := |messages| - 1;
      ChunkInvariance(e, s, messages[..n], cuts[..n], garbage);
      var t := HandledAll(e, s, messages[..n], garbage);
      EmptyWhileListening(e, s, messages[..n], garbage);
      ReceivedAppend(e, s, Flattened(cuts[..n]), cuts[n], garbage);
      if t.status == Listening {
        HandedAtLast(e, t, messages[n], cuts[n], garbage);
      } else {
        NothingWakes(e, t, cuts[n], garbage);
      }
      forall i, j | 0 <= i < |messages| && 0 <= j < |cuts[i]|
        ensures ReceivedAll(e, s, Flattened(cuts[..i]) + cuts[i][..j], garbage)
                == Between(HandledAll(e, s, messages[..i], garbage), Joined(cuts[i][..j]))
      {
        if i < n {
          assert cuts[..n][..i] == cuts[..i] && messages[..n][..i] == messages[..i] && cuts[..n][i] == cuts[i];
        } else {
          ReceivedAppend(e, s, Flattened(cuts[..n]), cuts[n][..j], garbage);
          if t.status == Listening {
            NothingBeforeLast(e, t, messages[n], cuts[n], j, garbage);
          } else {
            NothingWakes(e, t, cuts[n][..j], garbage);
          }
        }
      }
    }
  }

  lemma {:induction false} EmptyWhileListening(e: Setup, s: Session, messages: seq<seq<Byte>>, garbage: nat -> Byte)
    requires AtRest(s)
    ensures var t := HandledAll(e, s, messages, garbage); t.status == Listening ==> t.accumulated == []
  {
    hide Response;
    if messages != [] {
      EmptyWhileListening(e, s, messages[..|messages| - 1], garbage);
    }
  }

  // ---- which messages end the emulator ----

  /** What get_response makes of message i, when its turn comes. */
  function AnswerOf(e: Setup, s: Session, messages: seq<seq<Byte>>, i: nat, garbage: nat -> Byte): Answer
    requires i < |messages|
  {
    var t := HandledAll(e, s, messages[..i], garbage);
    Response(e, t.mmaps, messages[i], garbage(|t.handed|)).0
  }

  ghost predicate AllAnswered(e: Setup, s: Session, messages: seq<seq<Byte>>, n: nat, garbage: nat -> Byte)
    requires n <= |messages|
  {
    forall i :: 0 <= i < n ==> AnswerOf(e, s, messages, i, garbage).Answer?
  }

  lemma AnsweredPrefix(e: Setup, s: Session, messages: seq<seq<Byte>>, n: nat, k: nat, garbage: nat -> Byte)
    requires k <= n <= |messages|
    ensures AllAnswered(e, s, messages[..n], k, garbage) <==> AllAnswered(e, s, messages, k, garbage)
    ensures forall i :: 0 <= i < n ==> AnswerOf(e, s, messages[..n], i, garbage) == AnswerOf(e, s, messages, i, garbage)
  {
    hide HandledAll, Response;
    forall i | 0 <= i < n ensures AnswerOf(e, s, messages[..n], i, garbage) == AnswerOf(e, s, messages, i, garbage) {
      assert messages[..n][..i] == messages[..i];
    }
  }

  lemma HandledOne(e: Setup, t: Session, message: seq<Byte>, garbage: nat -> Byte)
    ensures var u, answer := Handled(e, t, message, LeftOf(message), garbage), Response(e, t.mmaps, message, garbage(|t.handed|)).0;
      && u.handed == t.handed + [message]
      && u.status == (match answer case Answer(_) => t.status case Threw => Ended case Undefined => Lost)
      && u.accumulated == if answer.Answer? then [] else LeftOf(message)
  {
    hide Response;
  }

  /** What is known when n messages have been handed over: every one before the last was answered. */
  ghost predicate HandedOver(e: Setup, s: Session, messages: seq<seq<Byte>>, t: Session, n: nat, garbage: nat -> Byte) {
    && n <= |messages| && t.handed == s.handed + messages[..n]
    && (t.status == Listening ==> n == |messages| && t.accumulated == [] && AllAnswered(e, s, messages, n, garbage))
    && (t.status != Listening ==>
          && n > 0 && AllAnswered(e, s, messages, n - 1, garbage) && t.accumulated == LeftOf(messages[n - 1])
          && AnswerOf(e, s, messages, n - 1, garbage) == if t.status == Ended then Threw else Undefined)
  }

  lemma {:induction false} HandedSoFar(e: Setup, s: Session, messages: seq<seq<Byte>>, garbage: nat -> Byte)
    requires AtRest(s)
    ensures var t := HandledAll(e, s, messages, garbage);
      |t.handed| >= |s.handed| && HandedOver(e, s, messages, t, |t.handed| - |s.handed|, garbage)
  {
    hide Handled, Response, LeftOf, AnswerOf, AllAnswered;
    if messages == [] {
      assert s.handed + messages[..0] == s.handed;
      NoneYet(e, s, messages, garbage);
    } else {
      var l := |messages| - 1;
      HandedSoFar(e, s, messages[..l], garbage);
      var t := HandledAll(e, s, messages[..l], garbage);
      var n := |t.handed| - |s.handed|;
      assert messages[..l][..n] == messages[..n];
      AnsweredPrefix(e, s, messages, l, if t.status == Listening then n else n - 1, garbage);
      if t.status == Listening {
        assert messages[..l] + [messages[l]] == messages == messages[..l + 1];
        HandledOne(e, t, messages[l], garbage);
        OneMoreAnswered(e, s, messages, l, garbage);
      }
    }
  }

  lemma NoneYet(e: Setup, s: Session, messages: seq<seq<Byte>>, garbage: nat -> Byte)
    ensures AllAnswered(e, s, messages, 0, garbage)
  {
  }

  lemma OneMoreAnswered(e: Setup, s: Session, messages: seq<seq<Byte>>, l: nat, garbage: nat -> Byte)
    requires l < |messages|
    ensures AllAnswered(e, s, messages, l + 1, garbage) <==>
            AllAnswered(e, s, messages, l, garbage) && AnswerOf(e, s, messages, l, garbage).Answer?
    ensures var t := HandledAll(e, s, messages[..l], garbage);
      AnswerOf(e, s, messages, l, garbage) == Response(e, t.mmaps, messages[l], garbage(|t.handed|)).0
  {
    hide HandledAll, Response;
  }

  /** Messages are handed over until the first whose answer does not return, that one included. */
  lemma HandedUntilOneStops(e: Setup, s: Session, messages: seq<seq<Byte>>, garbage: nat -> Byte)
    requires AtRest(s)
    ensures var t := HandledAll(e, s, messages, garbage); var n := |t.handed| - |s.handed|;
      && n >= 0 && HandedOver(e, s, messages, t, n, garbage)
      && (t.status == Listening <==> AllAnswered(e, s, messages, |messages|, garbage))
  {
    hide HandledAll, AnswerOf;
    HandedSoFar(e, s, messages, garbage);
  }

  /**
   * The emulator over any messages however cut, with memory maps, and no undefined behaviour before an exception: every
   * message is handed over, with nothing left over and the emulator still listening, exactly if make_reply throws at none
   * of them; otherwise exactly those up to the first it throws at are handed over, and that one's tail stays behind.
   */
  lemma MessagesAnsweredExactly(
      e: Setup, s: Session, messages: seq<seq<Byte>>, cuts: seq<seq<seq<Byte>>>, garbage: nat -> Byte)
    requires AtRest(s) && |cuts| == |messages| && e.strategy == MemoryMap
    requires forall i :: 0 <= i < |messages| ==>
               && IsMessage(messages[i]) && Split(messages[i], cuts[i]) && !Mistaken(messages[i], cuts[i])
               && (AnswerOf(e, s, messages, i, garbage) != Undefined || exists j :: 0 <= j < i && !Answerable(e.managers, messages[j]))
    ensures var t := ReceivedAll(e, s, Flattened(cuts), garbage); var n := |t.handed| - |s.handed|;
      && ((t.handed == s.handed + messages && AtRest(t)) <==> forall i :: 0 <= i < |messages| ==> Answerable(e.managers, messages[i]))
      && 0 <= n <= |messages| && t.handed == s.handed + messages[..n]
      && (!AtRest(t) ==>
            && t.status == Ended && n > 0 && !Answerable(e.managers, messages[n - 1]) && t.accumulated == LeftOf(messages[n - 1])
            && forall i :: 0 <= i < n - 1 ==> Answerable(e.managers, messages[i]))
  {
    hide ReceivedAll, HandledAll, Response, Split, Mistaken, Answerable, Flattened;
    ChunkInvariance(e, s, messages, cuts, garbage);
    HandedUntilOneStops(e, s, messages, garbage);
    forall i | 0 <= i < |messages| ensures AnswerOf(e, s, messages, i, garbage) == Threw <==> !Answerable(e.managers, messages[i]) {
      assert IsMessage(messages[i]);
      AnswerByMap(e, s, messages, i, garbage);
    }
    assert messages[..|messages|] == messages;
  }

  lemma AnswerByMap(e: Setup, s: Session, messages: seq<seq<Byte>>, i: nat, garbage: nat -> Byte)
    requires i < |messages| && messages[i] != [] && e.strategy == MemoryMap
    ensures AnswerOf(e, s, messages, i, garbage) == Threw <==> !Answerable(e.managers, messages[i])
  {
    hide HandledAll, Answerable, Reply;
    var t := HandledAll(e, s, messages[..i], garbage);
    ThrowsExactly(e.deck, e.managers, t.mmaps, messages[i], garbage(|t.handed|));
  }

  /** The responses learned for these messages, in their order, where there are any. */
  function LearnedFor(responses: map<seq<Byte>, seq<Byte>>, messages: seq<seq<Byte>>): seq<seq<Byte>> {
    if messages == [] then []
    else
      var n, m := |messages| - 1, messages[|messages| - 1];
      LearnedFor(responses, messages[..n]) + if m in responses && responses[m] != [] then [responses[m]] else []
  }

  /** A responder with learned responses answers all it has learned to, in order, and goes on listening. */
  lemma {:induction false} LearnedNeverStops(e: Setup, s: Session, messages: seq<seq<Byte>>, garbage: nat -> Byte)
    requires AtRest(s) && e.strategy.Lookup?
    ensures var t := HandledAll(e, s, messages, garbage);
      AtRest(t) && t.handed == s.handed + messages && t.sent == s.sent + LearnedFor(e.strategy.responses, messages)
  {
    hide LeftOf;
    if messages != [] {
      var n := |messages| - 1;
      LearnedNeverStops(e, s, messages[..n], garbage);
      assert messages[..n] + [messages[n]] == messages;
    }
  }

  /** Every packet the deck frames is such a message, and begins with zero, so any cutting of it is safe. */
  lemma FramedPacketsAreSafe(packet: seq<Byte>, chunks: seq<seq<Byte>>)
    requires |packet| < 0x1_0000_0000
    ensures IsMessage(Framed(packet)) && !Mistaken(Framed(packet), chunks)
  {
    SplatSuffix(8, |packet|, 4);
    UnsplatOfSplat(|packet|);
    assert Framed(packet)[8..12] == Splat(8, |packet|)[4..];
  }
}

/** Sending a SpaceWire command until its reply is accepted (src/TransportLayer.cpp:946-1028). */
module WriteRetry {
  import opened Options
  import opened Bytes
  import opened Systems
  import opened CommandDeck
  import opened Foxsimile
  import opened Transport

  const MAX_TRIES: nat := 8

  /** What happens in a turn of the loop: perhaps a send, then a reply or its absence. */
  datatype Event = Sent | Silent | WrongSize(size: nat) | BadStatus(status: Byte) | Accepted

  datatype Link = Link(sent: seq<seq<Byte>>, script: seq<seq<Byte>>, faults: set<Fault>)

  /** The loop's variables, and the history of its events. */
  datatype State = State(tried: nat, again: bool, reply: seq<Byte>, link: Link, trace: seq<Event>)

  function Received(l: Link, size: nat, tries: nat): (Link, seq<Byte>) {
    var (reply, rest) := Attempt(l.script, size, tries);
    (l.(script := rest, faults := AfterRead(l.faults, reply)), reply)
  }

  function Heard(reply: seq<Byte>, expected: nat): Event
    requires expected >= 12
  {
    if reply == [] then Silent
    else if |reply| != expected then WrongSize(|reply|)
    else if reply[expected - 5] == 0x00 then Accepted
    else BadStatus(reply[expected - 5])
  }

  /** One turn of a write that expects a reply. */
  function Turn(packet: seq<Byte>, expected: nat, tries: nat, s: State): State
    requires expected >= 12
  {
    var before := if s.again then s.link.(sent := s.link.sent + [packet]) else s.link;
    var (after, reply) := Received(before, expected, tries);
    var heard := Heard(reply, expected);
    var trace := s.trace + (if s.again then [Sent] else []) + [heard];
    if heard == Accepted then State(s.tried, s.again, reply, after, trace)
    else
      State(s.tried + 1, if heard.BadStatus? then s.again else heard.WrongSize?, reply,
            after.(faults := after.faults + {WritingInvalid}), trace)
  }

  predicate IsAccepted(trace: seq<Event>) { trace != [] && trace[|trace| - 1] == Accepted }

  predicate Over(s: State) { s.tried >= MAX_TRIES || IsAccepted(s.trace) }

  function Loop(packet: seq<Byte>, expected: nat, tries: nat, s: State): State
    requires expected >= 12
    decreases if IsAccepted(s.trace) then 0 else 1, MAX_TRIES - s.tried
  {
    if Over(s) then s else Loop(packet, expected, tries, Turn(packet, expected, tries, s))
  }

  function Start(l: Link): State { State(0, true, [], l, []) }

  /** A write without reply, or a read, is sent once. */
  function Once(packet: seq<Byte>, cmd: Command, link: LinkLayer, tries: nat, l: Link): (Link, seq<Byte>) {
    var before := l.(sent := l.sent + [packet]);
    if !cmd.read then (before, [])
    else
      var expected := link.staticHeader + link.staticFooter + cmd.replyLength;
      var (after, reply) := Received(before, expected, tries);
      (if |reply| != expected then after.(faults := after.faults + {ReadingInvalid}) else after, reply)
  }

  predicate Confirmed(cmd: Command) { !cmd.read && WantsReply(cmd.instruction) }

  function LinkOf(m: TransportLayerMachine, man: SystemManager): Link
    reads m, man
  {
    Link(m.sent, m.script, man.errors)
  }

  method SyncSendSpaceWireCommand(m: TransportLayerMachine, man: SystemManager, cmd: Command, packet: seq<Byte>)
    returns (reply: seq<Byte>, ghost trace: seq<Event>)
    requires man.system.spacewire.Some?
    modifies m`sent, m`script, man`errors
    ensures Confirmed(cmd) ==>
              var end := Loop(packet, 12 + cmd.replyLength, man.retryMaxCount, Start(old(LinkOf(m, man))));
              LinkOf(m, man) == end.link && reply == end.reply && trace == end.trace
    ensures !Confirmed(cmd) ==>
              (LinkOf(m, man), reply) ==
              Once(packet, cmd, man.system.spacewire.value.link, man.retryMaxCount, old(LinkOf(m, man)))
  {
    hide Attempt, AfterRead, Loop;
    reply, trace := [], [];
    var tryCounter, writeAgain := 0, true;
    var link := man.system.spacewire.value.link;
    ghost var start, size := Start(LinkOf(m, man)), 12 + cmd.replyLength;
    while tryCounter < MAX_TRIES
      invariant tryCounter <= MAX_TRIES
      invariant Confirmed(cmd) ==>
                  var s := State(tryCounter, writeAgain, reply, LinkOf(m, man), trace);
                  !IsAccepted(trace)
                  && Loop(packet, size, man.retryMaxCount, start) == Loop(packet, size, man.retryMaxCount, s)
      invariant !Confirmed(cmd) ==> tryCounter == 0 && writeAgain && LinkOf(m, man) == start.link
    {
      ghost var s := State(tryCounter, writeAgain, reply, LinkOf(m, man), trace);
      if Confirmed(cmd) {
        LoopTurns(packet, size, man.retryMaxCount, s);
      }
      if writeAgain {
        m.Send(packet);
        trace := trace + [Sent];
      }
      if !cmd.read {
        if WantsReply(cmd.instruction) {
          var expected := 12 + cmd.replyLength;
          reply := m.Read(expected, man);
          trace := trace + [Heard(reply, expected)];
          if |reply| != expected {
            man.errors := man.errors + {WritingInvalid};
            tryCounter := tryCounter + 1;
            writeAgain := |reply| != 0;
          } else {
            var status := reply[|reply| - 5];
            if status == 0x00 {
              LoopStops(packet, size, man.retryMaxCount, Turn(packet, size, man.retryMaxCount, s));
              return;
            }
            man.errors := man.errors + {WritingInvalid};
            tryCounter := tryCounter + 1;
          }
          assert State(tryCounter, writeAgain, reply, LinkOf(m, man), trace) == Turn(packet, size, man.retryMaxCount, s);
        } else {
          reply := [];
          return;
        }
      } else {
        var expected := link.staticHeader + link.staticFooter + cmd.replyLength;
        reply := m.Read(expected, man);
        if |reply| != expected {
          man.errors := man.errors + {ReadingInvalid};
        }
        return;
      }
    }
    if Confirmed(cmd) {
      LoopStops(packet, size, man.retryMaxCount, State(tryCounter, writeAgain, reply, LinkOf(m, man), trace));
    }
  }

  lemma LoopTurns(packet: seq<Byte>, expected: nat, tries: nat, s: State)
    requires expected >= 12 && !Over(s)
    ensures Loop(packet, expected, tries, s) == Loop(packet, expected, tries, Turn(packet, expected, tries, s))
  {
  }

  lemma LoopStops(packet: seq<Byte>, expected: nat, tries: nat, s: State)
    requires expected >= 12 && Over(s)
    ensures Loop(packet, expected, tries, s) == s
  {
  }

  // ---- what every turn keeps ----

  function Sends(trace: seq<Event>): nat {
    if trace == [] then 0 else Sends(trace[..|trace| - 1]) + if trace[|trace| - 1] == Sent then 1 else 0
  }

  /** Whether the latest reply of a wrong size, if there has been any, was more than silence. */
  predicate LatestWasSomething(trace: seq<Event>) {
    trace == []
    || (var e := trace[|trace| - 1]; if e.WrongSize? then true else if e.Silent? then false else LatestWasSomething(trace[..|trace| - 1]))
  }

  /**
   * Nothing follows acceptance; each reply or silence comes right after a send exactly if the latest wrong-size reply was
   * not silence; and a send is always followed by a reply or silence.
   */
  ghost predicate InPlace(trace: seq<Event>, i: nat)
    requires i < |trace|
  {
    && (trace[i] == Accepted ==> i == |trace| - 1)
    && (trace[i] != Sent ==> ((i > 0 && trace[i - 1] == Sent) <==> LatestWasSomething(trace[..i])))
    && (trace[i] == Sent ==> i + 1 < |trace| && trace[i + 1] != Sent)
  }

  ghost predicate Disciplined(trace: seq<Event>) { forall i :: 0 <= i < |trace| ==> InPlace(trace, i) }

  /** How often a reply was waited for. */
  function Waits(trace: seq<Event>): (n: nat)
    ensures n + Sends(trace) == |trace|
  {
    if trace == [] then 0 else Waits(trace[..|trace| - 1]) + if trace[|trace| - 1] == Sent then 0 else 1
  }

  ghost predicate Inv(packet: seq<Byte>, expected: nat, start: Link, s: State)
    requires expected >= 12
  {
    && Disciplined(s.trace) && s.again == LatestWasSomething(s.trace)
    && Waits(s.trace) == s.tried + (if IsAccepted(s.trace) then 1 else 0) <= MAX_TRIES
    && Sends(s.trace) <= Waits(s.trace)
    && (s.trace != [] ==> s.trace[0] == Sent && s.trace[|s.trace| - 1] == Heard(s.reply, expected))
    && s.link.sent == start.sent + seq(Sends(s.trace), _ => packet)
  }

  lemma AfterEvent(trace: seq<Event>, e: Event)
    ensures Sends(trace + [e]) == Sends(trace) + if e == Sent then 1 else 0
    ensures LatestWasSomething(trace + [e]) == if e.WrongSize? then true else if e.Silent? then false else LatestWasSomething(trace)
    ensures IsAccepted(trace + [e]) <==> e == Accepted
  {
    assert (trace + [e])[..|trace|] == trace;
  }

  lemma PlaceKept(trace: seq<Event>, all: seq<Event>, i: nat)
    requires trace <= all && i < |trace| && InPlace(trace, i)
    requires i == |trace| - 1 ==> trace[i] != Sent && trace[i] != Accepted
    ensures InPlace(all, i)
  {
    assert all[..i] == trace[..i];
  }

  lemma HeardAfterSend(trace: seq<Event>, heard: Event)
    requires LatestWasSomething(trace) && heard != Sent
    ensures InPlace(trace + [Sent] + [heard], |trace|) && InPlace(trace + [Sent] + [heard], |trace| + 1)
  {
    var n, all := |trace|, trace + [Sent] + [heard];
    AfterEvent(trace, Sent);
    hide LatestWasSomething;
    assert all[..n + 1] == trace + [Sent] && all[n] == Sent && all[n + 1] == heard;
  }

  lemma HeardAlone(trace: seq<Event>, heard: Event)
    requires !LatestWasSomething(trace) && heard != Sent && (trace != [] ==> trace[|trace| - 1] != Sent)
    ensures InPlace(trace + [heard], |trace|)
  {
    hide LatestWasSomething;
    assert (trace + [heard])[..|trace|] == trace;
  }

  lemma AllKept(trace: seq<Event>, all: seq<Event>)
    requires Disciplined(trace) && !IsAccepted(trace) && trace <= all
    ensures forall i :: 0 <= i < |trace| ==> InPlace(all, i)
    ensures trace != [] ==> trace[|trace| - 1] != Sent
  {
    if trace != [] { assert InPlace(trace, |trace| - 1); }
    forall i | 0 <= i < |trace| ensures InPlace(all, i) {
      assert InPlace(trace, i);
      PlaceKept(trace, all, i);
    }
  }

  /** A reply, or silence, with a send before it exactly if the history says so. */
  lemma TurnIsDisciplined(trace: seq<Event>, heard: Event)
    requires Disciplined(trace) && !IsAccepted(trace) && heard != Sent
    ensures LatestWasSomething(trace) ==> Disciplined(trace + [Sent] + [heard])
    ensures !LatestWasSomething(trace) ==> Disciplined(trace + [heard])
  {
    hide LatestWasSomething, InPlace;
    if LatestWasSomething(trace) {
      AllKept(trace, trace + [Sent] + [heard]);
      HeardAfterSend(trace, heard);
    } else {
      AllKept(trace, trace + [heard]);
      HeardAlone(trace, heard);
    }
  }

  lemma TurnKeepsInv(packet: seq<Byte>, expected: nat, tries: nat, start: Link, s: State)
    requires expected >= 12 && Inv(packet, expected, start, s) && !Over(s)
    ensures Inv(packet, expected, start, Turn(packet, expected, tries, s))
  {
    hide Attempt, AfterRead, Sends, Waits, LatestWasSomething, Disciplined;
    var t := Turn(packet, expected, tries, s);
    var heard := Heard(t.reply, expected);
    TurnIsDisciplined(s.trace, heard);
    AfterEvent(s.trace, Sent);
    AfterEvent(s.trace, heard);
    AfterEvent(s.trace + [Sent], heard);
    if s.again {
      assert t.trace == s.trace + [Sent] + [heard];
      assert t.link.sent == start.sent + seq(Sends(s.trace) + 1, _ => packet);
    } else {
      assert t.trace == s.trace + [] + [heard] == s.trace + [heard];
      assert s.trace != [] by { NothingYet(); }
    }
  }

  lemma NothingYet()
    ensures LatestWasSomething([]) && Sends([]) == 0 && Waits([]) == 0
  {
  }

  lemma {:induction false} LoopKeepsInv(packet: seq<Byte>, expected: nat, tries: nat, start: Link, s: State)
    requires expected >= 12 && Inv(packet, expected, start, s)
    ensures var end := Loop(packet, expected, tries, s);
      Inv(packet, expected, start, end) && Over(end) && |end.trace| >= |s.trace| + if Over(s) then 0 else 1
    decreases if IsAccepted(s.trace) then 0 else 1, MAX_TRIES - s.tried
  {
    hide Inv;
    if !Over(s) {
      TurnKeepsInv(packet, expected, tries, start, s);
      LoopKeepsInv(packet, expected, tries, start, Turn(packet, expected, tries, s));
    }
  }

  /** Between two turns: no send directly follows a silence. */
  lemma NoSendAfterSilence(trace: seq<Event>, i: nat)
    requires Disciplined(trace) && 0 < i < |trace| && trace[i] == Sent
    ensures trace[i - 1] != Silent && trace[i - 1] != Accepted && trace[i - 1] != Sent
  {
    assert InPlace(trace, i) && InPlace(trace, i + 1) && InPlace(trace, i - 1);
    assert trace[..i + 1] == trace[..i] + [Sent] && trace[..i] == trace[..i - 1] + [trace[i - 1]];
    AfterEvent(trace[..i], Sent);
    AfterEvent(trace[..i - 1], trace[i - 1]);
  }

  /**
   * Whatever the bridge answers, a write that expects a reply is sent between one and eight times, never after acceptance
   * and never directly after a silence; write_again always tells whether the latest reply of a wrong size was more than
   * silence; the loop gives up exactly after eight unaccepted replies; an accepted one has the exact size and status zero.
   */
  lemma WriteIsRetriedWithRestraint(packet: seq<Byte>, expected: nat, tries: nat, l: Link)
    requires expected >= 12
    ensures var end := Loop(packet, expected, tries, Start(l)); var n := Sends(end.trace);
      && 1 <= n <= MAX_TRIES && end.link.sent == l.sent + seq(n, _ => packet)
      && Disciplined(end.trace)
      && (forall i :: 0 < i < |end.trace| && end.trace[i] == Sent ==> end.trace[i - 1].WrongSize? || end.trace[i - 1].BadStatus?)
      && (IsAccepted(end.trace) <==> |end.reply| == expected && end.reply[expected - 5] == 0x00)
      && (!IsAccepted(end.trace) ==> Waits(end.trace) == MAX_TRIES)
  {
    NothingYet();
    assert seq(0, _ => packet) == [];
    assert Inv(packet, expected, l, Start(l));
    LoopKeepsInv(packet, expected, tries, l, Start(l));
    hide Loop;
    var trace := Loop(packet, expected, tries, Start(l)).trace;
    FirstSend(trace);
    hide InPlace;
    forall i | 0 < i < |trace| && trace[i] == Sent ensures trace[i - 1].WrongSize? || trace[i - 1].BadStatus? {
      NoSendAfterSilence(trace, i);
    }
  }

  lemma {:induction false} FirstSend(trace: seq<Event>)
    requires trace != [] && trace[0] == Sent
    ensures Sends(trace) >= 1
    decreases |trace|
  {
    if |trace| > 1 {
      FirstSend(trace[..|trace| - 1]);
    }
  }

  /** The event after a reply that does not end the loop is a send exactly if the latest wrong-size reply was not silence. */
  lemma NextIsSent(trace: seq<Event>, i: nat)
    requires Disciplined(trace) && i + 1 < |trace| && trace[i] != Sent
    ensures trace[i + 1] == Sent <==> LatestWasSomething(trace[..i + 1])
  {
    hide LatestWasSomething;
    assert InPlace(trace, i + 1);
    if trace[i + 1] == Sent {
      assert InPlace(trace, i + 2) && trace[..i + 2] == trace[..i + 1] + [Sent];
      AfterEvent(trace[..i + 1], Sent);
    }
  }

  /**
   * In every run, a reply with a bad status is answered with another send exactly if the latest wrong-size reply before it
   * was not silence; the log says "retrying" either way.
   */
  lemma BadStatusIsResentExactly(packet: seq<Byte>, expected: nat, tries: nat, l: Link, i: nat)
    requires expected >= 12
    requires var trace := Loop(packet, expected, tries, Start(l)).trace; i + 1 < |trace| && trace[i].BadStatus?
    ensures var trace := Loop(packet, expected, tries, Start(l)).trace;
      trace[i + 1] == Sent <==> LatestWasSomething(trace[..i])
  {
    WriteIsRetriedWithRestraint(packet, expected, tries, l);
    hide Loop, Disciplined, LatestWasSomething;
    var trace := Loop(packet, expected, tries, Start(l)).trace;
    NextIsSent(trace, i);
    assert trace[..i + 1] == trace[..i] + [trace[i]];
    AfterEvent(trace[..i], trace[i]);
  }

  // ---- commands that no reply confirms ----

  /** What sync_send_spacewire_command does to the link, and what it returns. */
  function Exchanged(packet: seq<Byte>, cmd: Command, link: LinkLayer, tries: nat, l: Link): (Link, seq<Byte>) {
    if Confirmed(cmd) then
      var end := Loop(packet, 12 + cmd.replyLength, tries, Start(l));
      (end.link, end.reply)
    else Once(packet, cmd, link, tries, l)
  }

  /**
   * Every command is sent: once if it is a read or a write that asks for no reply, up to eight times otherwise, and nothing
   * but its packet ever is. A write that asks for no reply waits for none and reports no fault.
   */
  lemma CommandIsSent(packet: seq<Byte>, cmd: Command, link: LinkLayer, tries: nat, l: Link) returns (n: nat)
    ensures var (after, reply) := Exchanged(packet, cmd, link, tries, l);
      && 1 <= n <= MAX_TRIES && after.sent == l.sent + seq(n, _ => packet) && (!Confirmed(cmd) ==> n == 1)
      && (!cmd.read && !Confirmed(cmd) ==> after.script == l.script && after.faults == l.faults && reply == [])
  {
    hide Loop, Attempt, WantsReply;
    if Confirmed(cmd) {
      WriteIsRetriedWithRestraint(packet, 12 + cmd.replyLength, tries, l);
      n := Sends(Loop(packet, 12 + cmd.replyLength, tries, Start(l)).trace);
    } else {
      n := 1;
      assert seq(1, _ => packet) == [packet];
    }
  }

  /**
   * A read gets the first reply that comes within the tries, up to the size it expects, leaves what comes after, and is
   * reported invalid if that reply is of another size; if none comes in time, it is reported both missing and invalid.
   */
  lemma ReadGetsFirstReply(
      packet: seq<Byte>, cmd: Command, link: LinkLayer, tries: nat, l: Link, d: nat, came: seq<Byte>, more: seq<seq<Byte>>)
    requires cmd.read && 0 < |came| <= link.staticHeader + link.staticFooter + cmd.replyLength
    requires l.script == Timeouts(d) + [came] + more
    ensures var expected := link.staticHeader + link.staticFooter + cmd.replyLength;
      var (after, reply) := Exchanged(packet, cmd, link, tries, l);
      if d < tries then
        && reply == came && after.script == more && ReadingPacket !in after.faults
        && (ReadingInvalid in after.faults <==> ReadingInvalid in l.faults || |came| != expected)
      else
        reply == [] && after.script == Timeouts(d - tries) + [came] + more && {ReadingPacket, ReadingInvalid} <= after.faults
  {
    var expected := link.staticHeader + link.staticFooter + cmd.replyLength;
    if d < tries {
      AttemptSucceeds(d, came, more, expected, tries);
    } else {
      AttemptsInVain(d, [came] + more, expected, tries);
      assert Timeouts(d) + [came] + more == Timeouts(d) + ([came] + more);
      assert Timeouts(d - tries) + [came] + more == Timeouts(d - tries) + ([came] + more);
    }
    hide Attempt, Loop;
  }

  lemma {:induction false} AttemptsInVain(d: nat, rest: seq<seq<Byte>>, size: nat, tries: nat)
    requires tries <= d
    ensures Attempt(Timeouts(d) + rest, size, tries) == ([], Timeouts(d - tries) + rest)
    decreases tries
  {
    if tries > 0 {
      assert (Timeouts(d) + rest)[1..] == Timeouts(d - 1) + rest;
      AttemptsInVain(d - 1, rest, size, tries - 1);
    }
  }

  // ---- a reply that is late ----

  predicate Good(reply: seq<Byte>, expected: nat) { |reply| == expected >= 12 && reply[expected - 5] == 0x00 }

  /** A silent turn waits through its tries and asks for no resend; a good reply ends the loop. */
  lemma LateTurn(packet: seq<Byte>, expected: nat, tries: nat, s: State, d: nat, good: seq<Byte>, more: seq<seq<Byte>>)
    requires Good(good, expected) && !Over(s) && s.link.script == Timeouts(d) + [good] + more
    ensures var t := Turn(packet, expected, tries, s);
      && t.link.sent == s.link.sent + (if s.again then [packet] else [])
      && (if d < tries then t.reply == good && t.link.script == more && IsAccepted(t.trace)
          else
            && t.reply == [] && t.link.script == Timeouts(d - tries) + [good] + more && !IsAccepted(t.trace)
            && !t.again && t.tried == s.tried + 1)
  {
    if d < tries {
      AttemptSucceeds(d, good, more, expected, tries);
    } else {
      AttemptsInVain(d, [good] + more, expected, tries);
      assert Timeouts(d) + [good] + more == Timeouts(d) + ([good] + more);
      assert Timeouts(d - tries) + [good] + more == Timeouts(d - tries) + ([good] + more);
    }
    hide Attempt;
  }

  lemma {:induction false} LateLoop(
      packet: seq<Byte>, expected: nat, tries: nat, s: State, d: nat, good: seq<Byte>, more: seq<seq<Byte>>)
    requires Good(good, expected) && !Over(s) && s.link.script == Timeouts(d) + [good] + more
    ensures var end := Loop(packet, expected, tries, s);
      && end.link.sent == s.link.sent + (if s.again then [packet] else [])
      && (if d < (MAX_TRIES - s.tried) * tries then end.reply == good && end.link.script == more && IsAccepted(end.trace)
          else end.reply == [] && end.link.script == Timeouts(d - (MAX_TRIES - s.tried) * tries) + [good] + more)
    decreases MAX_TRIES - s.tried
  {
    hide Turn;
    LateTurn(packet, expected, tries, s, d, good, more);
    var t := Turn(packet, expected, tries, s);
    var left := MAX_TRIES - s.tried;
    assert left * tries == tries + (left - 1) * tries;
    if d < tries {
      assert left * tries >= tries;
      LoopStops(packet, expected, tries, t);
    } else if Over(t) {
      LoopStops(packet, expected, tries, t);
    } else {
      LateLoop(packet, expected, tries, t, d - tries, good, more);
    }
  }

  /**
   * A write whose reply is good but late is sent once, and accepted exactly if fewer attempts time out before the reply than
   * eight times the configured tries; otherwise it is given up with the reply still to come.
   */
  lemma LateReplyIsAwaited(
      packet: seq<Byte>, cmd: Command, link: LinkLayer, tries: nat, l: Link, d: nat, good: seq<Byte>, more: seq<seq<Byte>>)
    requires Confirmed(cmd) && Good(good, 12 + cmd.replyLength) && l.script == Timeouts(d) + [good] + more
    ensures var (after, reply) := Exchanged(packet, cmd, link, tries, l);
      && after.sent == l.sent + [packet]
      && (if d < MAX_TRIES * tries then reply == good && after.script == more
          else reply == [] && after.script == Timeouts(d - MAX_TRIES * tries) + [good] + more)
  {
    LateLoop(packet, 12 + cmd.replyLength, tries, Start(l), d, good, more);
  }
}

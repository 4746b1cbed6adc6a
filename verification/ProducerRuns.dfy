/** What holds at every moment of every run of the producer hash. */
module ProducerRuns {
  import opened ProducerHash
  import opened ProducerHashSafety

  ghost predicate Run(h: ThreadId -> nat, states: seq<State>, events: seq<Event>) {
    && |states| == |events| + 1 && states[0] == INIT
    && (forall i :: 0 <= i < |events| ==> states[i + 1] == Next(h, states[i], events[i]))
  }

  lemma {:induction false} RunKeepsInv(h: ThreadId -> nat, states: seq<State>, events: seq<Event>, i: nat)
    requires Run(h, states, events) && i < |states|
    ensures Inv(h, states[i])
  {
    if i > 0 {
      RunKeepsInv(h, states, events, i - 1);
      NextKeepsInv(h, states[i - 1], events[i - 1]);
    }
  }

  /** At every moment of every run, every table is less than three quarters full. */
  lemma TablesHaveRoom(h: ThreadId -> nat, states: seq<State>, events: seq<Event>, i: nat, j: nat)
    requires Run(h, states, events) && i < |states| && j < |states[i].tables|
    ensures |states[i].tables[j].keys| < states[i].tables[j].capacity
    ensures |states[i].tables[j].keys| > 0 ==> 4 * |states[i].tables[j].keys| < 3 * states[i].tables[j].capacity
  {
    RunKeepsInv(h, states, events, i);
    UnderThreeQuarters(h, states[i], j);
  }

  /**
   * The loops marked "not an infinite loop" are not: whatever the other threads do in between, each turn of a probe
   * loop moves to the next slot of the same table, and no loop gets past as many slots as its table has.
   */
  lemma ProbeLoopsTerminate(h: ThreadId -> nat, states: seq<State>, events: seq<Event>, i: nat, t: ThreadId)
    requires Run(h, states, events) && i < |states|
    ensures var s := states[i]; var next := PcOf(StepThread(h, s, t), t);
      match PcOf(s, t)
      case Probe(main, j, k) =>
        && j < |s.tables| && k < s.tables[j].capacity
        && (next.Probe? ==> next.main == main && (next == Probe(main, j, k + 1) || (j > 0 && next == Probe(main, j - 1, 0))))
      case Migrate(main, k, value) =>
        && main < |s.tables| && k < s.tables[main].capacity
        && (next == Migrate(main, k + 1, value) || next.MigrateValue?)
      case Place(main, n, k, value) =>
        && main < |s.tables| && k < s.tables[main].capacity
        && (next == Place(main, n, k + 1, value) || next.PlaceValue?)
      case _ => true
  {
    RunKeepsInv(h, states, events, i);
    hide Inv, Slot, Progress, HistoryOk;
    var s, pc := states[i], PcOf(states[i], t);
    Known(h, s, t);
    if pc.Probe? {
      var slot := Slot(h, t, pc.k, s.tables[pc.table]);
      if slot in s.tables[pc.table].keys && s.tables[pc.table].keys[slot] == t {
        ProbeFoundKeepsInv(h, s, t, pc.main, pc.table, pc.k);
      }
    }
  }

  /** What a call returns is the producer created for its thread, and for no other. */
  lemma ReturnsOwnProducer(h: ThreadId -> nat, states: seq<State>, events: seq<Event>, i: nat, t: ThreadId, u: ThreadId)
    requires Run(h, states, events) && i < |states| && PcOf(states[i], t).Returned?
    ensures t in states[i].producer && states[i].producer[t] == PcOf(states[i], t).value
    ensures u != t && u in states[i].producer ==> states[i].producer[u] != PcOf(states[i], t).value
  {
    RunKeepsInv(h, states, events, i);
    hide Inv;
    Known(h, states[i], t);
  }

  /** A call on its way to returning null. */
  predicate GivingUp(pc: Pc) { pc.GiveUpLocked? || pc.GiveUpUnlock? || pc.GiveUp? || pc.Failed? }

  /** Steps that search or write tables, apart from the rest. */
  predicate AtTable(pc: Pc) { pc.Probe? || pc.Migrate? || pc.MigrateValue? || pc.Place? || pc.PlaceValue? }

  lemma TableStep(h: ThreadId -> nat, s: State, t: ThreadId, u: ThreadId)
    requires AtTable(PcOf(s, t))
    ensures u != t ==> PcOf(StepThread(h, s, t), u) == PcOf(s, u)
    ensures !GivingUp(PcOf(StepThread(h, s, t), t))
  {
    hide Slot;
    if PcOf(s, t).Probe? {
    } else if PcOf(s, t).Migrate? || PcOf(s, t).Place? {
    }
  }

  lemma OtherStep(h: ThreadId -> nat, s: State, t: ThreadId, u: ThreadId)
    requires !AtTable(PcOf(s, t))
    ensures u != t ==> PcOf(StepThread(h, s, t), u) == PcOf(s, u)
    ensures GivingUp(PcOf(StepThread(h, s, t), t)) ==> GivingUp(PcOf(s, t))
  {
    hide Limit, Grown, Without;
    var pc := PcOf(s, t);
    if pc.Count? || pc.GiveUp? || pc.GiveUpLocked? {
    } else if pc.Resize? || pc.Room? {
    } else if pc.Check? || pc.TryLock? {
    }
  }

  lemma GivesUpWithoutMemory(h: ThreadId -> nat, s: State, e: Event, t: ThreadId)
    requires GivingUp(PcOf(Next(h, s, e), t))
    ensures GivingUp(PcOf(s, t)) || (e == NoMemory(t) && Next(h, s, e) != s && (PcOf(s, t).Resize? || PcOf(s, t).Room?))
  {
    hide AtTable, StepThread, Limit;
    if AtTable(PcOf(s, e.t)) { TableStep(h, s, e.t, t); } else { OtherStep(h, s, e.t, t); }
  }

  /** Thread t's call that goes on at state i was, at state m, making an allocation that failed. */
  ghost predicate RanOut(h: ThreadId -> nat, states: seq<State>, events: seq<Event>, m: nat, i: nat, t: ThreadId) {
    && m < i < |states| == |events| + 1 && events[m] == NoMemory(t) && states[m + 1] != states[m]
    && (PcOf(states[m], t).Resize? || PcOf(states[m], t).Room?)
    && forall l :: m < l <= i ==> !PcOf(states[l], t).Idle?
  }

  /**
   * A call ends with null only if an allocation of its own failed, between its beginning and its end; and then no producer
   * exists for its thread, which has none to lose.
   */
  lemma {:induction false} FailsOnlyWithoutMemory(
      h: ThreadId -> nat, states: seq<State>, events: seq<Event>, i: nat, t: ThreadId)
    requires Run(h, states, events) && i < |states| && GivingUp(PcOf(states[i], t))
    ensures exists m :: RanOut(h, states, events, m, i, t)
    ensures PcOf(states[i], t).Failed? ==> t !in states[i].producer
  {
    hide Inv, Next;
    RunKeepsInv(h, states, events, i);
    assert PcOf(states[i], t).Failed? ==> t !in states[i].producer by {
      Known(h, states[i], t);
      hide Carries, HistoryOk;
    }
    assert i > 0;
    GivesUpWithoutMemory(h, states[i - 1], events[i - 1], t);
    if GivingUp(PcOf(states[i - 1], t)) {
      FailsOnlyWithoutMemory(h, states, events, i - 1, t);
      var m :| RanOut(h, states, events, m, i - 1, t);
      assert RanOut(h, states, events, m, i, t);
    } else {
      assert RanOut(h, states, events, i - 1, i, t);
    }
  }

  // ---- undisturbed calls ----

  /** Thread t alone takes n steps, and no allocation fails. */
  function Alone(h: ThreadId -> nat, s: State, t: ThreadId, n: nat): State
    decreases n
  {
    if n == 0 then s else Alone(h, Next(h, s, Advance(t)), t, n - 1)
  }

  /** Where a call can be that nobody has disturbed: it works on the newest table, and nobody else holds the lock. */
  ghost predicate OnItsWay(s: State, t: ThreadId) {
    var pc := PcOf(s, t);
    && |s.tables| > 0 && (s.resizing ==> InLock(pc))
    && match pc
       case LoadMain => true
       case Probe(main, _, _) => main == Main(s)
       case Migrate(_, _, _) => true
       case MigrateValue(_, _, _) => true
       case Count(main) => main == Main(s)
       case Check(main, _) => main == Main(s)
       case TryLock(main, _) => main == Main(s)
       case Locked(_) => true
       case Resize(main, _) => main == Main(s)
       case Unlock(main, n) => main == Main(s) && n < s.tables[main].capacity / 2
       case Room(main, n) => main == Main(s) && n < s.tables[main].capacity / 2
       case Place(_, _, _, _) => true
       case PlaceValue(_, _, _, _) => true
       case Returned(_) => true
       case _ => false
  }

  function Stage(pc: Pc): nat {
    match pc
    case LoadMain => 13
    case Probe(_, _, _) => 12
    case Count(_) => 11
    case Check(_, _) => 10
    case TryLock(_, _) => 9
    case Locked(_) => 8
    case Resize(_, _) => 7
    case Unlock(_, _) => 6
    case Room(_, _) => 5
    case Place(_, _, _, _) => 4
    case Migrate(_, _, _) => 3
    case PlaceValue(_, _, _, _) => 2
    case MigrateValue(_, _, _) => 1
    case _ => 0
  }

  /** What is left of a probe: tables, and slots of the present one. */
  function TablesLeft(pc: Pc): nat { if pc.Probe? then pc.table else 0 }

  function SlotsLeft(s: State, pc: Pc): nat {
    var (j, k) := if pc.Probe? then (pc.table, pc.k) else if pc.Migrate? || pc.Place? then (pc.main, pc.k) else (0, 0);
    if j < |s.tables| && k < s.tables[j].capacity then s.tables[j].capacity - k else 0
  }

  predicate Earlier(s: State, s': State, t: ThreadId) {
    var pc, pc' := PcOf(s, t), PcOf(s', t);
    || Stage(pc') < Stage(pc)
    || (Stage(pc') == Stage(pc) && TablesLeft(pc') < TablesLeft(pc))
    || (Stage(pc') == Stage(pc) && TablesLeft(pc') == TablesLeft(pc) && SlotsLeft(s', pc') < SlotsLeft(s, pc))
  }

  lemma ProbeGetsOn(h: ThreadId -> nat, s: State, t: ThreadId)
    requires Inv(h, s) && OnItsWay(s, t) && (PcOf(s, t).Probe? || PcOf(s, t).Migrate? || PcOf(s, t).Place?)
    ensures var s' := StepThread(h, s, t); OnItsWay(s', t) && Earlier(s, s', t)
  {
    hide Inv, Slot, HistoryOk, Progress;
    Known(h, s, t);
    var pc := PcOf(s, t);
    if pc.Probe? {
      var slot := Slot(h, t, pc.k, s.tables[pc.table]);
      if slot in s.tables[pc.table].keys && s.tables[pc.table].keys[slot] == t {
        ProbeFoundKeepsInv(h, s, t, pc.main, pc.table, pc.k);
      }
    }
  }

  lemma ResizeGetsOn(h: ThreadId -> nat, s: State, t: ThreadId)
    requires Inv(h, s) && OnItsWay(s, t) && PcOf(s, t).Resize?
    ensures var s' := StepThread(h, s, t); OnItsWay(s', t) && Earlier(s, s', t)
  {
    hide Inv, Slot;
    TableKnown(h, s, Main(s));
    hide MemberOk;
  }

  lemma OthersGetOn(h: ThreadId -> nat, s: State, t: ThreadId)
    requires Inv(h, s) && OnItsWay(s, t) && !PcOf(s, t).Probe? && !PcOf(s, t).Migrate? && !PcOf(s, t).Place?
    requires !PcOf(s, t).Returned? && !PcOf(s, t).Resize?
    ensures var s' := StepThread(h, s, t); OnItsWay(s', t) && Earlier(s, s', t)
  {
    hide Inv, Slot;
    Known(h, s, t);
    hide Progress, HistoryOk, Passed, Findable;
    var pc := PcOf(s, t);
    if pc.MigrateValue? || pc.PlaceValue? {
    } else if pc.LoadMain? || pc.Count? || pc.Check? || pc.TryLock? {
    }
  }

  /** A call that is not disturbed and gets the memory it asks for returns its thread's producer. */
  lemma {:induction false} UndisturbedCallReturns(h: ThreadId -> nat, s: State, t: ThreadId)
    requires Inv(h, s) && OnItsWay(s, t)
    ensures exists n: nat :: PcOf(Alone(h, s, t, n), t).Returned? && Inv(h, Alone(h, s, t, n))
    decreases Stage(PcOf(s, t)), TablesLeft(PcOf(s, t)), SlotsLeft(s, PcOf(s, t))
  {
    hide Inv, OnItsWay, StepThread, SlotsLeft, TablesLeft, Stage;
    if PcOf(s, t).Returned? {
      assert Alone(h, s, t, 0) == s;
    } else {
      var s' := Next(h, s, Advance(t));
      NextKeepsInv(h, s, Advance(t));
      if PcOf(s, t).Probe? || PcOf(s, t).Migrate? || PcOf(s, t).Place? {
        ProbeGetsOn(h, s, t);
      } else if PcOf(s, t).Resize? {
        ResizeGetsOn(h, s, t);
      } else {
        OthersGetOn(h, s, t);
      }
      UndisturbedCallReturns(h, s', t);
      var n: nat :| PcOf(Alone(h, s', t, n), t).Returned? && Inv(h, Alone(h, s', t, n));
      assert Alone(h, s, t, n + 1) == Alone(h, s', t, n);
    }
  }

  /** So from any moment of any run at which nobody holds the lock: a thread that calls, and is left alone, gets its producer. */
  lemma CallAloneReturns(h: ThreadId -> nat, states: seq<State>, events: seq<Event>, i: nat, t: ThreadId)
    requires Run(h, states, events) && i < |states| && PcOf(states[i], t).Idle? && !states[i].resizing
    ensures var s := Next(h, states[i], Begin(t));
      exists n: nat :: var end := Alone(h, s, t, n);
        PcOf(end, t).Returned? && t in end.producer && end.producer[t] == PcOf(end, t).value
  {
    hide Inv, StepThread;
    RunKeepsInv(h, states, events, i);
    var s := Next(h, states[i], Begin(t));
    NextKeepsInv(h, states[i], Begin(t));
    assert OnItsWay(s, t) by {
      Known(h, s, t);
      hide Carries, Progress;
    }
    UndisturbedCallReturns(h, s, t);
    var n: nat :| PcOf(Alone(h, s, t, n), t).Returned? && Inv(h, Alone(h, s, t, n));
    Known(h, Alone(h, s, t, n), t);
  }

  lemma NextExtendsProducers(h: ThreadId -> nat, s: State, e: Event, t: ThreadId)
    requires Inv(h, s) && t in s.producer
    ensures t in Next(h, s, e).producer && Next(h, s, e).producer[t] == s.producer[t]
  {
    hide Inv, Slot, Limit, Grown, HistoryOk, Passed;
    Known(h, s, e.t);
  }

  lemma {:induction false} ProducersArePermanent(
      h: ThreadId -> nat, states: seq<State>, events: seq<Event>, i: nat, j: nat, t: ThreadId)
    requires Run(h, states, events) && i <= j < |states| && t in states[i].producer
    ensures t in states[j].producer && states[j].producer[t] == states[i].producer[t]
    decreases j
  {
    hide Inv, Next;
    if i < j {
      ProducersArePermanent(h, states, events, i, j - 1, t);
      RunKeepsInv(h, states, events, j - 1);
      NextExtendsProducers(h, states[j - 1], events[j - 1], t);
    }
  }

  /**
   * A thread is always given the same implicit producer, and two threads never share one, whatever other threads
   * insert, migrate and resize in between.
   */
  lemma OneProducerPerThread(
      h: ThreadId -> nat, states: seq<State>, events: seq<Event>, i: nat, j: nat, t: ThreadId, u: ThreadId)
    requires Run(h, states, events) && i <= j < |states|
    requires PcOf(states[i], t).Returned? && PcOf(states[j], u).Returned?
    ensures PcOf(states[i], t).value == PcOf(states[j], u).value <==> t == u
  {
    ReturnsOwnProducer(h, states, events, i, t, u);
    ReturnsOwnProducer(h, states, events, j, u, t);
    ProducersArePermanent(h, states, events, i, j, t);
  }
}

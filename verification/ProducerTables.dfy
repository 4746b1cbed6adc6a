/** How large the tables of the producer hash get: no larger than the threads that call need (concurrentqueue.h:3448-3490). */
module ProducerTables {
  import opened Modular
  import opened ProducerHash
  import opened ProducerHashSafety
  import opened ProducerRuns

  /** Every count drawn is within the number of threads that have called, and every table but the first within four times that. */
  ghost predicate Small(s: State) {
    && (forall t :: t in s.number ==> t in s.pcs && s.number[t] <= |s.pcs|)
    && (forall j :: 0 <= j < |s.tables| ==> SmallTable(s, j))
  }

  predicate SmallTable(s: State, j: nat)
    requires j < |s.tables|
  {
    s.tables[j].capacity <= INITIAL_IMPLICIT_PRODUCER_HASH_SIZE || s.tables[j].capacity <= 4 * |s.pcs| + 3
  }

  /** Doubling stops as soon as half the capacity exceeds n. */
  lemma {:induction false} GrownAtMost(capacity: nat, n: nat)
    requires 0 < capacity <= 4 * n + 3
    ensures Grown(capacity, n) <= 4 * n + 3
    decreases 2 * n + 2 - capacity
  {
    if n >= capacity / 2 {
      GrownAtMost(2 * capacity, n);
    }
  }

  function Drawers(order: seq<ThreadId>): set<ThreadId> { set t | t in order }

  lemma {:induction false} DistinctSize(order: seq<ThreadId>)
    requires forall p, q :: 0 <= p < q < |order| ==> order[p] != order[q]
    ensures |Drawers(order)| == |order|
  {
    if order == [] {
      assert Drawers(order) == {};
    } else {
      var n := |order| - 1;
      DistinctSize(order[..n]);
      assert order == order[..n] + [order[n]];
      assert Drawers(order) == Drawers(order[..n]) + {order[n]};
    }
  }

  lemma NotDrawnYet(h: ThreadId -> nat, s: State, t: ThreadId)
    requires Inv(h, s) && PcOf(s, t).Count?
    ensures t !in s.number && OrderOk(s)
  {
    hide Inv, OrderOk;
    Known(h, s, t);
    forall j | 0 <= j < |s.tables| ensures t !in s.tables[j].position {
      assert Absent(s, t, j);
    }
    assert !Somewhere(s, t);
  }

  /** A thread draws at most the number of threads there are. */
  lemma DrawIsSmall(h: ThreadId -> nat, s: State, t: ThreadId)
    requires Inv(h, s) && Small(s) && PcOf(s, t).Count?
    ensures t in s.pcs && s.count + 1 <= |s.pcs|
  {
    hide Inv, SmallTable;
    NotDrawnYet(h, s, t);
    DistinctSize(s.order);
    assert t !in Drawers(s.order);
    assert Drawers(s.order) + {t} <= s.pcs.Keys;
    SubsetSize(Drawers(s.order) + {t}, s.pcs.Keys);
  }

  /** What a step may do to counts, tables and the set of threads. */
  ghost predicate Frame(s: State, s': State, e: Event) {
    && (s'.pcs == s.pcs || s'.pcs == s.pcs[e.t := PcOf(s', e.t)])
    && (s'.number == s.number || s'.number == s.number - {e.t}
        || (e.Advance? && PcOf(s, e.t).Count? && s'.number == s.number[e.t := s.count + 1]))
    && |s.tables| <= |s'.tables| <= |s.tables| + 1
    && (forall j :: 0 <= j < |s.tables| ==> s'.tables[j].capacity == s.tables[j].capacity)
    && (|s'.tables| > |s.tables| ==>
          && e.Advance? && PcOf(s, e.t).Resize? && Adds(s, e.t)
          && s'.tables[|s.tables|].capacity == Grown(2 * s.tables[PcOf(s, e.t).main].capacity, PcOf(s, e.t).n))
  }

  lemma AtTableFrame(h: ThreadId -> nat, s: State, t: ThreadId)
    requires AtTable(PcOf(s, t))
    ensures Frame(s, StepThread(h, s, t), Advance(t))
  {
    hide Slot, Grown, Limit, Without;
    if PcOf(s, t).Probe? {
      ProbeFrame(h, s, t);
    } else if PcOf(s, t).Migrate? {
    } else if PcOf(s, t).Place? {
    }
  }

  lemma ProbeFrame(h: ThreadId -> nat, s: State, t: ThreadId)
    requires PcOf(s, t).Probe?
    ensures Frame(s, StepThread(h, s, t), Advance(t))
  {
    hide Slot, Grown, Limit, Without, Adds;
  }

  lemma OtherFrame(h: ThreadId -> nat, s: State, t: ThreadId)
    requires !AtTable(PcOf(s, t))
    ensures Frame(s, StepThread(h, s, t), Advance(t))
  {
    hide Slot, Grown, Limit, Without;
    var pc := PcOf(s, t);
    if pc.Count? || pc.GiveUp? || pc.GiveUpLocked? {
    } else if pc.Resize? || pc.Room? {
    } else if pc.Check? || pc.TryLock? {
    }
  }

  lemma NextFrame(h: ThreadId -> nat, s: State, e: Event)
    ensures Frame(s, Next(h, s, e), e)
  {
    if e.Advance? {
      hide StepThread, Frame;
      if AtTable(PcOf(s, e.t)) { AtTableFrame(h, s, e.t); } else { OtherFrame(h, s, e.t); }
    } else {
      hide StepThread, Grown;
    }
  }

  lemma PcsGrow(s: State, s': State, e: Event)
    requires Frame(s, s', e)
    ensures s.pcs.Keys <= s'.pcs.Keys && |s.pcs| <= |s'.pcs|
  {
    SubsetSize(s.pcs.Keys, s'.pcs.Keys);
  }

  /** The thread at pc finds the newest table half full of the threads that have drawn. */
  predicate Adds(s: State, t: ThreadId)
    requires PcOf(s, t).Resize?
  {
    var pc := PcOf(s, t);
    pc.main < |s.tables| && s.tables[pc.main].capacity > 0 && pc.n >= s.tables[pc.main].capacity / 2
  }

  lemma NumbersStaySmall(s: State, s': State, e: Event)
    requires Small(s) && Frame(s, s', e) && s.pcs.Keys <= s'.pcs.Keys && |s.pcs| <= |s'.pcs|
    requires e.Advance? && PcOf(s, e.t).Count? ==> e.t in s.pcs && s.count + 1 <= |s.pcs|
    ensures forall t :: t in s'.number ==> t in s'.pcs && s'.number[t] <= |s'.pcs|
  {
    hide SmallTable, Adds, PcOf, Grown;
    forall t | t in s'.number ensures t in s'.pcs && s'.number[t] <= |s'.pcs| {
      assert t in s.number || t == e.t;
      assert t in s.pcs.Keys;
    }
  }

  lemma TableStaysSmall(h: ThreadId -> nat, s: State, s': State, e: Event, j: nat)
    requires Inv(h, s) && Small(s) && Frame(s, s', e) && |s.pcs| <= |s'.pcs| && j < |s'.tables|
    ensures SmallTable(s', j)
  {
    hide Inv, Grown;
    if j < |s.tables| {
      assert SmallTable(s, j);
    } else {
      var pc := PcOf(s, e.t);
      Known(h, s, e.t);
      hide Carries, HistoryOk, Small, Frame;
      GrownAtMost(2 * s.tables[pc.main].capacity, pc.n);
    }
  }

  lemma StepStaysSmall(h: ThreadId -> nat, s: State, e: Event)
    requires Inv(h, s) && Small(s)
    ensures Small(Next(h, s, e))
  {
    hide Next, Inv, Grown, Frame, SmallTable;
    var s' := Next(h, s, e);
    NextFrame(h, s, e);
    PcsGrow(s, s', e);
    if e.Advance? && PcOf(s, e.t).Count? { DrawIsSmall(h, s, e.t); }
    NumbersStaySmall(s, s', e);
    forall j | 0 <= j < |s'.tables| ensures SmallTable(s', j) {
      TableStaysSmall(h, s, s', e, j);
    }
  }

  /**
   * In every run, a table is the first, or no larger than four times the threads that have called and three more: growing
   * waits until half the newest table is drawn, and stops at the first capacity twice what was drawn.
   */
  lemma TablesAreSmall(h: ThreadId -> nat, states: seq<State>, events: seq<Event>, i: nat, j: nat)
    requires Run(h, states, events) && i < |states| && j < |states[i].tables|
    ensures states[i].tables[j].capacity <= 32 || states[i].tables[j].capacity <= 4 * |states[i].pcs| + 3
  {
    RunStaysSmall(h, states, events, i);
    assert SmallTable(states[i], j);
  }

  lemma {:induction false} RunStaysSmall(h: ThreadId -> nat, states: seq<State>, events: seq<Event>, i: nat)
    requires Run(h, states, events) && i < |states|
    ensures Small(states[i])
  {
    hide Small;
    if i > 0 {
      RunStaysSmall(h, states, events, i - 1);
      RunKeepsInv(h, states, events, i - 1);
      StepStaysSmall(h, states[i - 1], events[i - 1]);
    } else {
      InitIsSmall();
    }
  }

  lemma InitIsSmall()
    ensures Small(INIT)
  {
  }
}

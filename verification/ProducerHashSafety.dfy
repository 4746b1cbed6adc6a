/** Every step of every thread keeps the invariant of the producer hash. */
module ProducerHashSafety {
  import opened ProducerHash

  // ---- every event keeps the invariant ----

  /** What thread t's step leaves alone. */
  ghost predicate Undisturbed(s: State, s': State, t: ThreadId) {
    && |s'.tables| >= |s.tables|
    && (forall j :: 0 <= j < |s.tables| ==> Kept(s.tables[j], s'.tables[j], t))
    && (forall j :: |s.tables| <= j < |s'.tables| ==> s'.tables[j].capacity > 0 && s'.tables[j] == EmptyTable(s'.tables[j].capacity))
    && (forall u :: u != t ==> PcOf(s', u) == PcOf(s, u))
    && (forall u :: u != t ==> (u in s'.number <==> u in s.number) && (u in s'.producer <==> u in s.producer))
    && (forall u :: u != t && u in s.number ==> u in s'.number && s'.number[u] == s.number[u])
    && (forall u :: u in s.producer ==> u in s'.producer && s'.producer[u] == s.producer[u])
  }

  ghost predicate Kept(a: Table, b: Table, t: ThreadId) {
    && b.capacity == a.capacity
    && (forall x :: x in a.keys ==> x in b.keys && b.keys[x] == a.keys[x])
    && (forall u :: u in a.position ==> u in b.position && b.position[u] == a.position[u])
    && (forall u :: u != t && u in b.position ==> u in a.position)
    && (forall x :: x in a.keys && a.keys[x] != t ==> (x in a.values ==> x in b.values && b.values[x] == a.values[x]))
  }

  lemma StillAbsent(s: State, s': State, t: ThreadId, u: ThreadId, j: nat)
    requires Undisturbed(s, s', t) && u != t && Absent(s, u, j)
    ensures Absent(s', u, j)
  {
    assert j < |s.tables| ==> Kept(s.tables[j], s'.tables[j], t);
  }

  lemma OtherProgress(s: State, s': State, t: ThreadId, u: ThreadId)
    requires Undisturbed(s, s', t) && u != t && Progress(s, u)
    ensures Progress(s', u)
  {
    if Somewhere(s, u) {
      var j :| 0 <= j < |s.tables| && u in s.tables[j].position;
      assert Kept(s.tables[j], s'.tables[j], t) && u in s'.tables[j].position;
    }
    forall j: nat | Absent(s, u, j) ensures Absent(s', u, j) {
      StillAbsent(s, s', t, u, j);
    }
    assert PcOf(s', u) == PcOf(s, u);
  }

  lemma OtherCarries(h: ThreadId -> nat, s: State, s': State, t: ThreadId, u: ThreadId)
    requires Undisturbed(s, s', t) && u != t && Carries(h, s, u)
    ensures Carries(h, s', u)
  {
    var pc := PcOf(s, u);
    assert PcOf(s', u) == pc;
    forall j: nat | Absent(s, u, j) ensures Absent(s', u, j) {
      StillAbsent(s, s', t, u, j);
    }
    match pc {
      case Probe(_, j, k) =>
        StillPassed(h, s, s', t, u, j, k);
        assert Kept(s.tables[j], s'.tables[j], t);
        if u in s'.tables[j].position {
          assert forall e :: 0 <= e < k ==> Slot(h, u, e, s'.tables[j]) == Slot(h, u, e, s.tables[j]);
        }
      case Migrate(main, k, _) => StillPassed(h, s, s', t, u, main, k);
      case Place(main, _, k, _) => StillPassed(h, s, s', t, u, main, k);
      case MigrateValue(main, _, _) => assert Kept(s.tables[main], s'.tables[main], t);
      case PlaceValue(main, _, _, _) => assert Kept(s.tables[main], s'.tables[main], t);
      case _ =>
    }
  }

  lemma OtherThread(h: ThreadId -> nat, s: State, s': State, t: ThreadId, u: ThreadId)
    requires Undisturbed(s, s', t) && u != t && ThreadOk(h, s, u)
    ensures ThreadOk(h, s', u)
  {
    hide Progress, Carries, Undisturbed;
    OtherProgress(s, s', t, u);
    OtherCarries(h, s, s', t, u);
  }

  lemma StillPassed(h: ThreadId -> nat, s: State, s': State, t: ThreadId, u: ThreadId, j: nat, k: nat)
    requires Undisturbed(s, s', t) && Passed(h, s, u, j, k)
    ensures Passed(h, s', u, j, k)
  {
    assert Kept(s.tables[j], s'.tables[j], t);
    forall e | 0 <= e < k ensures Slot(h, u, e, s'.tables[j]) in s'.tables[j].keys {
      assert Slot(h, u, e, s.tables[j]) in s.tables[j].keys;
    }
  }

  lemma StillFindable(h: ThreadId -> nat, a: Table, b: Table, t: ThreadId, u: ThreadId)
    requires Kept(a, b, t) && u in a.position && Findable(h, a, u)
    ensures Findable(h, b, u)
  {
    var d: nat :| d < a.capacity && Slot(h, u, d, a) == a.position[u]
      && forall e :: 0 <= e < d ==> Slot(h, u, e, a) in a.keys;
    assert Slot(h, u, d, b) == b.position[u];
    forall e | 0 <= e < d ensures Slot(h, u, e, b) in b.keys {
      assert Slot(h, u, e, a) in a.keys;
    }
  }

  lemma OtherMember(h: ThreadId -> nat, s: State, s': State, t: ThreadId, j: nat, u: ThreadId)
    requires Undisturbed(s, s', t) && u != t && j < |s.tables| && u in s.tables[j].position && MemberOk(h, s, j, u)
    ensures u in s'.tables[j].position && MemberOk(h, s', j, u)
  {
    assert Kept(s.tables[j], s'.tables[j], t);
    StillFindable(h, s.tables[j], s'.tables[j], t, u);
  }

  lemma StepKeepsInv(h: ThreadId -> nat, s: State, s': State, t: ThreadId)
    requires Inv(h, s) && Undisturbed(s, s', t)
    requires HistoryOk(s') && ThreadOk(h, s', t)
    requires forall j :: 0 <= j < |s.tables| && t in s'.tables[j].position ==> MemberOk(h, s', j, t)
    requires forall j, x :: 0 <= j < |s.tables| && x in s'.tables[j].keys && s'.tables[j].keys[x] == t ==>
               x < s'.tables[j].capacity && t in s'.tables[j].position && s'.tables[j].position[t] == x
    requires forall j, x :: 0 <= j < |s.tables| && x in s'.tables[j].keys && s'.tables[j].keys[x] != t ==>
               x in s.tables[j].keys
    ensures Inv(h, s')
  {
    forall u ensures ThreadOk(h, s', u) {
      if u != t { OtherThread(h, s, s', t, u); }
    }
    forall j | 0 <= j < |s'.tables| ensures TableOk(h, s', j) {
      if j < |s.tables| {
        assert TableOk(h, s, j) && Kept(s.tables[j], s'.tables[j], t);
        forall u | u in s'.tables[j].position ensures MemberOk(h, s', j, u) {
          if u != t {
            assert u in s.tables[j].position && MemberOk(h, s, j, u);
            OtherMember(h, s, s', t, j, u);
          }
        }
      }
    }
  }

  /** Steps that touch no table. */
  lemma QuietKeepsInv(h: ThreadId -> nat, s: State, s': State, t: ThreadId)
    requires Inv(h, s) && Undisturbed(s, s', t) && s'.tables == s.tables
    requires HistoryOk(s') && ThreadOk(h, s', t) && (t in s.number ==> t in s'.number && s'.number[t] == s.number[t])
    requires !PcOf(s, t).MigrateValue? && !PcOf(s, t).PlaceValue?
    ensures Inv(h, s')
  {
    hide HistoryOk, Findable, Limit, ThreadOk;
    forall j | 0 <= j < |s.tables| && t in s'.tables[j].position ensures MemberOk(h, s', j, t) {
      assert TableOk(h, s, j) && MemberOk(h, s, j, t);
    }
    forall j, x | 0 <= j < |s.tables| && x in s'.tables[j].keys && s'.tables[j].keys[x] == t
      ensures x < s'.tables[j].capacity && t in s'.tables[j].position && s'.tables[j].position[t] == x
    {
      assert TableOk(h, s, j);
    }
    StepKeepsInv(h, s, s', t);
  }

  /** Moving t's program counter outside the resize lock. */
  lemma GotoKeepsInv(h: ThreadId -> nat, s: State, t: ThreadId, pc: Pc)
    requires Inv(h, s) && !InLock(pc)
    requires Progress(Goto(s, t, pc), t) && Carries(h, Goto(s, t, pc), t)
    requires !PcOf(s, t).MigrateValue? && !PcOf(s, t).PlaceValue?
    ensures Inv(h, Goto(s, t, pc))
  {
    hide Progress, Carries, TableOk;
    Known(h, s, t);
    GotoFrame(s, t, pc);
    hide Undisturbed, HistoryOk;
    QuietKeepsInv(h, s, Goto(s, t, pc), t);
  }

  lemma GotoFrame(s: State, t: ThreadId, pc: Pc)
    requires HistoryOk(s) && !InLock(pc)
    ensures HistoryOk(Goto(s, t, pc)) && Undisturbed(s, Goto(s, t, pc), t)
  {
    var s' := Goto(s, t, pc);
    assert s'.tables == s.tables && s'.number == s.number && s'.producer == s.producer;
    forall u | InLock(PcOf(s', u)) ensures PcOf(s', u) == PcOf(s, u) {
    }
  }

  lemma ProbeEmptyKeepsInv(h: ThreadId -> nat, s: State, t: ThreadId, main: nat, j: nat, k: nat)
    requires Inv(h, s) && PcOf(s, t) == Probe(main, j, k)
    requires j < |s.tables| && Slot(h, t, k, s.tables[j]) !in s.tables[j].keys
    ensures Inv(h, Goto(s, t, if j == 0 then Count(main) else Probe(main, j - 1, 0)))
  {
    Known(h, s, t);
    EmptySlotMeansAbsent(h, s, t, j, k);
    assert forall i: nat :: j <= i ==> Absent(s, t, i);
    if j > 0 { TableKnown(h, s, j - 1); }
    var pc := if j == 0 then Count(main) else Probe(main, j - 1, 0);
    hide Inv, HistoryOk, TableOk, MemberOk, Findable;
    forall i: nat | Absent(s, t, i) ensures Absent(Goto(s, t, pc), t, i) {
    }
    GotoKeepsInv(h, s, t, pc);
  }

  lemma MissedOnceMore(h: ThreadId -> nat, s: State, t: ThreadId, j: nat, k: nat)
    requires j < |s.tables| && TableOk(h, s, j) && t in s.tables[j].position
    requires Slot(h, t, k, s.tables[j]) in s.tables[j].keys && s.tables[j].keys[Slot(h, t, k, s.tables[j])] != t
    requires Missed(h, s.tables[j], t, k)
    ensures Missed(h, s.tables[j], t, k + 1)
  {
    hide Slot, Findable;
    assert MemberOk(h, s, j, t);
  }

  lemma ProbeOtherKeepsInv(h: ThreadId -> nat, s: State, t: ThreadId, main: nat, j: nat, k: nat)
    requires Inv(h, s) && PcOf(s, t) == Probe(main, j, k)
    requires j < |s.tables| && Slot(h, t, k, s.tables[j]) in s.tables[j].keys
    requires s.tables[j].keys[Slot(h, t, k, s.tables[j])] != t
    ensures Inv(h, Goto(s, t, Probe(main, j, k + 1)))
  {
    hide Inv, Findable, Slot;
    Known(h, s, t);
    TableKnown(h, s, j);
    ProbeGoesOn(h, s, t, j, k);
    if t in s.tables[j].position { MissedOnceMore(h, s, t, j, k); }
    hide HistoryOk, TableOk, MemberOk, Missed, OrderOk;
    var s' := Goto(s, t, Probe(main, j, k + 1));
    forall i: nat | j < i ensures Absent(s', t, i) {
      assert Absent(s, t, i);
    }
    GotoKeepsInv(h, s, t, Probe(main, j, k + 1));
  }

  lemma ProbeFoundKeepsInv(h: ThreadId -> nat, s: State, t: ThreadId, main: nat, j: nat, k: nat)
    requires Inv(h, s) && PcOf(s, t) == Probe(main, j, k)
    requires j < |s.tables| && Slot(h, t, k, s.tables[j]) in s.tables[j].keys
    requires s.tables[j].keys[Slot(h, t, k, s.tables[j])] == t
    ensures Slot(h, t, k, s.tables[j]) in s.tables[j].values
    ensures var value := s.tables[j].values[Slot(h, t, k, s.tables[j])];
      Inv(h, Goto(s, t, if j == main then Returned(value) else Migrate(main, 0, value)))
  {
    hide Inv, Findable, Slot;
    Known(h, s, t);
    TableKnown(h, s, j);
    TableKnown(h, s, main);
    assert MemberOk(h, s, j, t);
    assert s.tables[j].capacity <= s.tables[main].capacity;
    var value := s.tables[j].values[Slot(h, t, k, s.tables[j])];
    assert s.tables[main].capacity > 0 && (j < main ==> Absent(s, t, main));
    assert t in s.number && s.number[t] < Limit(s.tables[main].capacity);
    assert t in s.producer && s.producer[t] == value;
    hide HistoryOk, TableOk, MemberOk, Missed;
    GotoKeepsInv(h, s, t, if j == main then Returned(value) else Migrate(main, 0, value));
  }

  lemma ProbeKeepsInv(h: ThreadId -> nat, s: State, t: ThreadId)
    requires Inv(h, s) && PcOf(s, t).Probe?
    ensures Inv(h, StepThread(h, s, t))
  {
    Known(h, s, t);
    hide Inv, Progress, HistoryOk;
    var pc := PcOf(s, t);
    var slot := Slot(h, t, pc.k, s.tables[pc.table]);
    if slot !in s.tables[pc.table].keys {
      ProbeEmptyKeepsInv(h, s, t, pc.main, pc.table, pc.k);
    } else if s.tables[pc.table].keys[slot] != t {
      ProbeOtherKeepsInv(h, s, t, pc.main, pc.table, pc.k);
    } else {
      ProbeFoundKeepsInv(h, s, t, pc.main, pc.table, pc.k);
    }
  }

  /** t's absence everywhere depends on the tables alone. */
  lemma AbsenceKept(s: State, s': State, t: ThreadId)
    requires (forall j :: Absent(s, t, j)) && s'.tables == s.tables
    ensures (forall j :: Absent(s', t, j)) && !Somewhere(s', t) && !Somewhere(s, t)
  {
    forall j: nat ensures Absent(s', t, j) {
      assert Absent(s, t, j);
    }
    forall j: nat | j < |s.tables| ensures t !in s.tables[j].position {
      assert Absent(s, t, j);
    }
  }

  lemma WalkKeepsInv(h: ThreadId -> nat, s: State, t: ThreadId)
    requires Inv(h, s)
    requires PcOf(s, t).LoadMain? || PcOf(s, t).Check? || PcOf(s, t).Reload? || (PcOf(s, t).TryLock? && s.resizing)
          || (PcOf(s, t).Room? && PcOf(s, t).main < |s.tables| && PcOf(s, t).n >= Limit(s.tables[PcOf(s, t).main].capacity))
    ensures Inv(h, StepThread(h, s, t))
  {
    hide Inv, Slot, Findable, OrderOk, MemberOk, Injective, CapacitiesGrow;
    Known(h, s, t);
    var pc := PcOf(StepThread(h, s, t), t);
    TableKnown(h, s, Main(s));
    if !PcOf(s, t).LoadMain? { AbsenceKept(s, Goto(s, t, pc), t); }
    assert s.tables[Main(s)].capacity > 0;
    hide HistoryOk, TableOk;
    GotoKeepsInv(h, s, t, pc);
  }

  lemma NextSlotKeepsInv(h: ThreadId -> nat, s: State, t: ThreadId)
    requires Inv(h, s) && (PcOf(s, t).Migrate? || PcOf(s, t).Place?) && PcOf(s, t).main < |s.tables|
    requires Slot(h, t, PcOf(s, t).k, s.tables[PcOf(s, t).main]) in s.tables[PcOf(s, t).main].keys
    ensures Inv(h, StepThread(h, s, t))
  {
    hide Inv, Slot, Findable;
    Known(h, s, t);
    var old_, pc := PcOf(s, t), PcOf(StepThread(h, s, t), t);
    ProbeGoesOn(h, s, t, old_.main, old_.k);
    if old_.Place? { AbsenceKept(s, Goto(s, t, pc), t); }
    assert old_.Migrate? ==> Absent(Goto(s, t, pc), t, old_.main) by { assert old_.Migrate? ==> Absent(s, t, old_.main); }
    hide HistoryOk;
    GotoKeepsInv(h, s, t, pc);
  }

  lemma LockHistory(s: State, s': State, t: ThreadId)
    requires HistoryOk(s)
    requires PcOf(s, t).Locked? || PcOf(s, t).Unlock? || PcOf(s, t).GiveUpUnlock? || (PcOf(s, t).TryLock? && !s.resizing)
    requires s' == StepThread(_ => 0, s, t)
    ensures HistoryOk(s') && Undisturbed(s, s', t) && s'.tables == s.tables
  {
    hide Injective, CapacitiesGrow, OrderOk, Kept;
    SameOrder(s, s');
    SameTables(s, s', t);
    forall u | u != t ensures PcOf(s', u) == PcOf(s, u) {
    }
  }

  lemma DrawOrder(s: State, t: ThreadId)
    requires OrderOk(s) && t !in s.number
    ensures OrderOk(Draw(s, t))
  {
    forall p | 0 <= p < |s.order| ensures s.order[p] != t {
    }
  }

  lemma CountHistory(s: State, t: ThreadId, pc: Pc)
    requires HistoryOk(s) && t !in s.number && !InLock(pc)
    ensures var s' := Goto(Draw(s, t), t, pc); HistoryOk(s') && Undisturbed(s, s', t)
  {
    hide CapacitiesGrow, Injective, OrderOk, Kept;
    DrawOrder(s, t);
    var s' := Goto(Draw(s, t), t, pc);
    SameOrder(Draw(s, t), s');
    SameTables(s, s', t);
    forall u | u != t ensures PcOf(s', u) == PcOf(s, u) {
    }
  }

  lemma SameTables(s: State, s': State, t: ThreadId)
    requires s'.tables == s.tables
    ensures forall j :: 0 <= j < |s.tables| ==> Kept(s.tables[j], s'.tables[j], t)
  {
  }

  lemma SameOrder(s: State, s': State)
    requires OrderOk(s) && s'.order == s.order && s'.number == s.number && s'.count == s.count
    ensures OrderOk(s')
  {
  }

  /** Those after t move up one place, which keeps each place below the count drawn there. */
  lemma {:induction false} WithoutOne(order: seq<ThreadId>, t: ThreadId, p: nat)
    requires p < |order| && order[p] == t && forall q :: 0 <= q < p ==> order[q] != t
    ensures Without(order, t) == order[..p] + order[p + 1..]
  {
    if p > 0 {
      WithoutOne(order[1..], t, p - 1);
      assert [order[0]] + order[1..][..p - 1] == order[..p];
    }
  }

  lemma TakeBackOrder(s: State, t: ThreadId)
    requires OrderOk(s) && t in s.number
    ensures OrderOk(TakeBack(s, t))
  {
    var p :| 0 <= p < |s.order| && s.order[p] == t;
    WithoutOne(s.order, t, p);
    hide Without;
    OneFewer(s, TakeBack(s, t), t, p);
  }

  function Skip(p: nat, q: nat): nat { if q < p then q else q + 1 }

  lemma SkipsOne(a: seq<ThreadId>, b: seq<ThreadId>, p: nat)
    requires p < |a| && b == a[..p] + a[p + 1..]
    ensures |b| == |a| - 1 && forall q :: 0 <= q < |b| ==> b[q] == a[Skip(p, q)]
  {
  }

  /** Taking one thread out of the order leaves it in order. */
  lemma Thinned(s: State, s': State, t: ThreadId, p: nat)
    requires OrderOk(s) && p < |s.order| && s.order[p] == t
    requires |s'.order| == |s.order| - 1 && forall q :: 0 <= q < |s'.order| ==> s'.order[q] == s.order[Skip(p, q)]
    requires s'.number == s.number - {t} && s'.count == s.count - 1
    ensures OrderOk(s')
  {
    forall q | 0 <= q < |s'.order| ensures s'.order[q] in s'.number && s'.number[s'.order[q]] >= q + 1 {
      ThinnedAt(s, t, p, q);
    }
    forall q, r | 0 <= q < r < |s'.order| ensures s'.order[q] != s'.order[r] {
      OthersDiffer(s, Skip(p, q), Skip(p, r));
    }
    forall u | u in s'.number ensures u in s'.order {
      var q := PlaceOf(s, u);
      assert s'.order[if q < p then q else q - 1] == s.order[q];
    }
  }

  lemma ThinnedAt(s: State, t: ThreadId, p: nat, q: nat)
    requires OrderOk(s) && p < |s.order| && s.order[p] == t && Skip(p, q) < |s.order|
    ensures var u := s.order[Skip(p, q)]; u != t && u in s.number && s.number[u] >= q + 1
  {
    OthersDiffer(s, Skip(p, q), p);
  }

  lemma PlaceOf(s: State, u: ThreadId) returns (q: nat)
    requires OrderOk(s) && u in s.number
    ensures q < |s.order| && s.order[q] == u
  {
    q :| q < |s.order| && s.order[q] == u;
  }

  lemma OneFewer(s: State, s': State, t: ThreadId, p: nat)
    requires OrderOk(s) && p < |s.order| && s.order[p] == t
    requires s'.order == s.order[..p] + s.order[p + 1..] && s'.number == s.number - {t} && s'.count == s.count - 1
    ensures OrderOk(s')
  {
    hide OrderOk, Skip;
    SkipsOne(s.order, s'.order, p);
    Thinned(s, s', t, p);
  }

  lemma OthersDiffer(s: State, a: nat, b: nat)
    requires OrderOk(s) && a < |s.order| && b < |s.order| && a != b
    ensures s.order[a] != s.order[b]
  {
    if a < b { var _ := s.order[a] != s.order[b]; } else { var _ := s.order[b] != s.order[a]; }
  }

  lemma TakeBackHistory(s: State, t: ThreadId, pc: Pc)
    requires HistoryOk(s) && t in s.number && t !in s.producer && (InLock(pc) ==> InLock(PcOf(s, t))) && !pc.Resize?
    ensures var s' := Goto(TakeBack(s, t), t, pc); HistoryOk(s') && Undisturbed(s, s', t)
  {
    hide CapacitiesGrow, Injective, OrderOk, Without, Kept;
    TakeBackOrder(s, t);
    var s' := Goto(TakeBack(s, t), t, pc);
    SameOrder(TakeBack(s, t), s');
    SameTables(s, s', t);
    forall u | u != t ensures PcOf(s', u) == PcOf(s, u) {
    }
  }

  lemma TakeBackKeepsInv(h: ThreadId -> nat, s: State, t: ThreadId)
    requires Inv(h, s) && (PcOf(s, t).GiveUpLocked? || PcOf(s, t).GiveUp?)
    ensures Inv(h, StepThread(h, s, t))
  {
    hide Inv, Slot, Findable, Undisturbed, HistoryOk, Without;
    Known(h, s, t);
    var s' := StepThread(h, s, t);
    AbsenceKept(s, s', t);
    TakeBackHistory(s, t, PcOf(s', t));
    forall j, x | 0 <= j < |s.tables| && x in s'.tables[j].keys ensures s'.tables[j].keys[x] != t {
      assert Absent(s, t, j);
      TableKnown(h, s, j);
    }
    StepKeepsInv(h, s, s', t);
  }

  lemma CreateHistory(s: State, t: ThreadId, pc: Pc)
    requires HistoryOk(s) && t !in s.producer && !InLock(pc)
    ensures var s' := Goto(s.(created := s.created + 1, producer := s.producer[t := s.created]), t, pc);
      HistoryOk(s') && Undisturbed(s, s', t)
  {
    hide CapacitiesGrow;
    var s' := Goto(s.(created := s.created + 1, producer := s.producer[t := s.created]), t, pc);
    forall u | u != t ensures PcOf(s', u) == PcOf(s, u) {
    }
  }

  lemma LockKeepsInv(h: ThreadId -> nat, s: State, t: ThreadId)
    requires Inv(h, s)
    requires PcOf(s, t).Locked? || PcOf(s, t).Unlock? || PcOf(s, t).GiveUpUnlock? || (PcOf(s, t).TryLock? && !s.resizing)
    ensures Inv(h, StepThread(h, s, t))
  {
    hide Inv, Slot, Findable, Undisturbed;
    Known(h, s, t);
    var s' := StepThread(h, s, t);
    LockHistory(s, s', t);
    AbsenceKept(s, s', t);
    QuietKeepsInv(h, s, s', t);
  }

  lemma CountKeepsInv(h: ThreadId -> nat, s: State, t: ThreadId)
    requires Inv(h, s) && PcOf(s, t).Count?
    ensures Inv(h, StepThread(h, s, t))
  {
    hide Inv, Slot, Findable, Undisturbed, HistoryOk;
    Known(h, s, t);
    var s' := StepThread(h, s, t);
    AbsenceKept(s, s', t);
    CountHistory(s, t, PcOf(s', t));
    QuietKeepsInv(h, s, s', t);
  }

  lemma CreateKeepsInv(h: ThreadId -> nat, s: State, t: ThreadId)
    requires Inv(h, s) && PcOf(s, t).Room? && PcOf(s, t).main < |s.tables|
    requires PcOf(s, t).n < Limit(s.tables[PcOf(s, t).main].capacity)
    ensures Inv(h, StepThread(h, s, t))
  {
    hide Inv, Slot, Findable, Undisturbed, HistoryOk, MemberOk;
    Known(h, s, t);
    var s' := StepThread(h, s, t);
    AbsenceKept(s, s', t);
    TableKnown(h, s, PcOf(s, t).main);
    CreateHistory(s, t, PcOf(s', t));
    QuietKeepsInv(h, s, s', t);
  }

  lemma ResizeUndisturbed(h: ThreadId -> nat, s: State, t: ThreadId)
    requires PcOf(s, t).Resize? && |s.tables| > 0 && s.tables[Main(s)].capacity > 0 && PcOf(s, t).main == Main(s)
    ensures Undisturbed(s, StepThread(h, s, t), t)
  {
    hide Slot;
  }

  /** The lock holder sees the newest table, so the table it appends is larger than every other. */
  lemma ResizeHistory(h: ThreadId -> nat, s: State, t: ThreadId)
    requires HistoryOk(s) && PcOf(s, t).Resize?
    requires s.tables[Main(s)].capacity > 0
    ensures var s' := StepThread(h, s, t); HistoryOk(s') && Undisturbed(s, s', t)
  {
    hide Slot, Injective, OrderOk, Undisturbed;
    var s' := StepThread(h, s, t);
    SameOrder(s, s');
    assert PcOf(s, t).main == Main(s);
    ResizeUndisturbed(h, s, t);
    forall u | u != t ensures PcOf(s', u) == PcOf(s, u) {
    }
    forall u ensures PcOf(s', u).Resize? ==> PcOf(s', u).main == Main(s') {
      assert PcOf(s', u).Resize? ==> InLock(PcOf(s, u)) && InLock(PcOf(s, t));
    }
  }

  lemma ResizeKeepsInv(h: ThreadId -> nat, s: State, t: ThreadId)
    requires Inv(h, s) && PcOf(s, t).Resize?
    ensures Inv(h, StepThread(h, s, t))
  {
    hide Inv, Slot, Findable, MemberOk, OrderOk, Injective, CapacitiesGrow;
    Known(h, s, t);
    TableKnown(h, s, Main(s));
    ResizeHistory(h, s, t);
    hide HistoryOk, Undisturbed;
    var s' := StepThread(h, s, t);
    AbsenceKept(s, s.(pcs := s'.pcs), t);
    forall j: nat ensures Absent(s', t, j) {
      assert Absent(s, t, j);
    }
    forall j | 0 <= j < |s.tables| ensures s'.tables[j] == s.tables[j] && t !in s.tables[j].position {
      assert Absent(s, t, j);
    }
    forall j, x | 0 <= j < |s.tables| && x in s'.tables[j].keys ensures s'.tables[j].keys[x] != t {
      TableKnown(h, s, j);
    }
    StepKeepsInv(h, s, s', t);
  }

  // ---- insertion ----

  lemma StoreHistory(s: State, s': State, t: ThreadId, main: nat, slot: nat, pc: Pc)
    requires HistoryOk(s) && main < |s.tables| && !InLock(pc)
    requires s' == Goto(SetTable(s, main, Store(s.tables[main], slot, t)), t, pc)
    ensures HistoryOk(s')
  {
    hide Injective;
    assert forall j :: 0 <= j < |s.tables| ==> s'.tables[j].capacity == s.tables[j].capacity;
    assert CapacitiesGrow(s'.tables);
    hide CapacitiesGrow;
    forall u | InLock(PcOf(s', u)) ensures PcOf(s', u) == PcOf(s, u) {
    }
  }

  lemma StoreIsLocal(s: State, s': State, t: ThreadId, main: nat, slot: nat, pc: Pc)
    requires HistoryOk(s) && main < |s.tables| && slot !in s.tables[main].keys && Absent(s, t, main)
    requires !InLock(pc)
    requires s' == Goto(SetTable(s, main, Store(s.tables[main], slot, t)), t, pc)
    ensures HistoryOk(s') && Undisturbed(s, s', t)
  {
    StoreHistory(s, s', t, main, slot, pc);
    hide HistoryOk;
  }

  lemma StoreMember(h: ThreadId -> nat, s: State, s': State, t: ThreadId, main: nat, k: nat, pc: Pc)
    requires Passed(h, s, t, main, k) && Slot(h, t, k, s.tables[main]) !in s.tables[main].keys
    requires t in s.number && s.number[t] < Limit(s.tables[main].capacity) && t in s.producer
    requires s' == Goto(SetTable(s, main, Store(s.tables[main], Slot(h, t, k, s.tables[main]), t)), t, pc)
    requires Writing(pc, main)
    ensures MemberOk(h, s', main, t)
  {
    hide Limit;
    var a, b := s.tables[main], s'.tables[main];
    assert Slot(h, t, k, b) == b.position[t];
    forall e | 0 <= e < k ensures Slot(h, t, e, b) in b.keys {
      assert Slot(h, t, e, a) in a.keys;
    }
  }

  /** The entries of t after a store, in whatever tables it has any. */
  lemma StoreMembers(h: ThreadId -> nat, s: State, s': State, t: ThreadId, main: nat, slot: nat, j: nat)
    requires main < |s.tables| && j < |s.tables| && TableOk(h, s, j)
    requires slot !in s.tables[main].keys && Absent(s, t, main) && slot < s.tables[main].capacity
    requires !PcOf(s, t).MigrateValue? && !PcOf(s, t).PlaceValue?
    requires s' == Goto(SetTable(s, main, Store(s.tables[main], slot, t)), t, PcOf(s', t))
    requires MemberOk(h, s', main, t)
    ensures t in s'.tables[j].position ==> MemberOk(h, s', j, t)
    ensures forall x :: x in s'.tables[j].keys && s'.tables[j].keys[x] == t ==>
              x < s'.tables[j].capacity && t in s'.tables[j].position && s'.tables[j].position[t] == x
  {
    hide Findable, Limit;
    if j != main && t in s'.tables[j].position { assert MemberOk(h, s, j, t); }
  }

  lemma StoreProgress(s: State, s': State, t: ThreadId, main: nat, slot: nat)
    requires main < |s.tables| && Progress(s, t) && Absent(s, t, main)
    requires PcOf(s, t).Migrate? || PcOf(s, t).Place?
    requires PcOf(s', t).MigrateValue? || PcOf(s', t).PlaceValue?
    requires s' == Goto(SetTable(s, main, Store(s.tables[main], slot, t)), t, PcOf(s', t))
    requires t in s.producer
    ensures Progress(s', t)
  {
    assert t in s'.tables[main].position;
  }

  lemma StoreKeepsInv(h: ThreadId -> nat, s: State, t: ThreadId)
    requires Inv(h, s) && (PcOf(s, t).Migrate? || PcOf(s, t).Place?) && PcOf(s, t).main < |s.tables|
    requires Slot(h, t, PcOf(s, t).k, s.tables[PcOf(s, t).main]) !in s.tables[PcOf(s, t).main].keys
    ensures Inv(h, StepThread(h, s, t))
  {
    hide Inv, Slot, Findable, Limit, TableOk, MemberOk, HistoryOk, Undisturbed;
    Known(h, s, t);
    var old_, s' := PcOf(s, t), StepThread(h, s, t);
    var main, slot := old_.main, Slot(h, t, old_.k, s.tables[old_.main]);
    assert Absent(s, t, main);
    StoreProgress(s, s', t, main, slot);
    hide Progress;
    StoreIsLocal(s, s', t, main, slot, PcOf(s', t));
    StoreMember(h, s, s', t, main, old_.k, PcOf(s', t));
    SlotInRange(h, t, old_.k, s.tables[main]);
    forall j: nat | j < |s.tables|
      ensures t in s'.tables[j].position ==> MemberOk(h, s', j, t)
      ensures forall x :: x in s'.tables[j].keys && s'.tables[j].keys[x] == t ==>
                x < s'.tables[j].capacity && t in s'.tables[j].position && s'.tables[j].position[t] == x
    {
      TableKnown(h, s, j);
      StoreMembers(h, s, s', t, main, slot, j);
    }
    StepKeepsInv(h, s, s', t);
  }

  lemma SlotInRange(h: ThreadId -> nat, t: ThreadId, k: nat, table: Table)
    ensures table.capacity > 0 ==> Slot(h, t, k, table) < table.capacity
  {
  }

  lemma ValueUndisturbed(s: State, s': State, t: ThreadId, main: nat, slot: nat, value: ProducerId)
    requires main < |s.tables| && slot in s.tables[main].keys && s.tables[main].keys[slot] == t
    requires s' == Goto(SetTable(s, main, s.tables[main].(values := s.tables[main].values[slot := value])), t, Returned(value))
    ensures Undisturbed(s, s', t)
  {
  }

  lemma ValueIsLocal(s: State, s': State, t: ThreadId, main: nat, slot: nat, value: ProducerId)
    requires HistoryOk(s) && main < |s.tables| && slot in s.tables[main].keys && s.tables[main].keys[slot] == t
    requires s' == Goto(SetTable(s, main, s.tables[main].(values := s.tables[main].values[slot := value])), t, Returned(value))
    ensures HistoryOk(s') && Undisturbed(s, s', t)
  {
    hide Injective, OrderOk, Undisturbed;
    ValueUndisturbed(s, s', t, main, slot, value);
    SameOrder(s, s');
    assert forall j :: 0 <= j < |s.tables| ==> s'.tables[j].capacity == s.tables[j].capacity;
    assert CapacitiesGrow(s'.tables);
    hide CapacitiesGrow;
    forall u | InLock(PcOf(s', u)) ensures PcOf(s', u) == PcOf(s, u) {
    }
  }

  lemma ValueMembers(h: ThreadId -> nat, s: State, s': State, t: ThreadId, main: nat, slot: nat, value: ProducerId, j: nat)
    requires main < |s.tables| && j < |s.tables| && TableOk(h, s, j)
    requires t in s.tables[main].position && s.tables[main].position[t] == slot
    requires Writing(PcOf(s, t), main) && t in s.producer && s.producer[t] == value
    requires s' == Goto(SetTable(s, main, s.tables[main].(values := s.tables[main].values[slot := value])), t, Returned(value))
    ensures t in s'.tables[j].position ==> MemberOk(h, s', j, t)
    ensures forall x :: x in s'.tables[j].keys && s'.tables[j].keys[x] == t ==>
              x < s'.tables[j].capacity && t in s'.tables[j].position && s'.tables[j].position[t] == x
  {
    hide Findable, Limit;
    if t in s'.tables[j].position {
      assert MemberOk(h, s, j, t);
      SameFindable(h, s.tables[j], s'.tables[j], t);
    }
  }

  lemma ValueProgress(s: State, s': State, t: ThreadId, main: nat, slot: nat, value: ProducerId)
    requires main < |s.tables| && Progress(s, t) && t in s.tables[main].position
    requires PcOf(s, t).MigrateValue? || PcOf(s, t).PlaceValue?
    requires s' == Goto(SetTable(s, main, s.tables[main].(values := s.tables[main].values[slot := value])), t, Returned(value))
    ensures Progress(s', t)
  {
    assert t in s'.tables[main].position;
  }

  lemma ValueKeepsInv(h: ThreadId -> nat, s: State, t: ThreadId)
    requires Inv(h, s) && (PcOf(s, t).MigrateValue? || PcOf(s, t).PlaceValue?)
    ensures Inv(h, StepThread(h, s, t))
  {
    hide Inv, Slot, Findable, Limit, HistoryOk, Undisturbed;
    Known(h, s, t);
    var old_, s' := PcOf(s, t), StepThread(h, s, t);
    TableKnown(h, s, old_.main);
    assert MemberOk(h, s, old_.main, t);
    ValueIsLocal(s, s', t, old_.main, old_.slot, old_.value);
    ValueProgress(s, s', t, old_.main, old_.slot, old_.value);
    hide TableOk, MemberOk, Progress;
    forall j: nat | j < |s.tables|
      ensures t in s'.tables[j].position ==> MemberOk(h, s', j, t)
      ensures forall x :: x in s'.tables[j].keys && s'.tables[j].keys[x] == t ==>
                x < s'.tables[j].capacity && t in s'.tables[j].position && s'.tables[j].position[t] == x
    {
      TableKnown(h, s, j);
      ValueMembers(h, s, s', t, old_.main, old_.slot, old_.value, j);
    }
    StepKeepsInv(h, s, s', t);
  }

  lemma SameFindable(h: ThreadId -> nat, a: Table, b: Table, t: ThreadId)
    requires b.capacity == a.capacity && b.keys == a.keys && b.position == a.position
    requires t in a.position && Findable(h, a, t)
    ensures Findable(h, b, t)
  {
    var d: nat :| d < a.capacity && Slot(h, t, d, a) == a.position[t]
      && forall e :: 0 <= e < d ==> Slot(h, t, e, a) in a.keys;
    assert Slot(h, t, d, b) == b.position[t];
    forall e | 0 <= e < d ensures Slot(h, t, e, b) in b.keys {
      assert Slot(h, t, e, a) in a.keys;
    }
  }

  // ---- whole runs ----

  lemma StepThreadKeepsInv(h: ThreadId -> nat, s: State, t: ThreadId)
    requires Inv(h, s)
    ensures Inv(h, StepThread(h, s, t))
  {
    hide Inv, Slot, Progress, HistoryOk, Passed, Limit, Grown;
    Known(h, s, t);
    match PcOf(s, t) {
      case Idle =>
      case Returned(_) =>
      case Failed =>
      case GiveUpLocked(_) => TakeBackKeepsInv(h, s, t);
      case GiveUp(_) => TakeBackKeepsInv(h, s, t);
      case GiveUpUnlock => LockKeepsInv(h, s, t);
      case Probe(_, _, _) => ProbeKeepsInv(h, s, t);
      case Migrate(main, k, _) =>
        if main < |s.tables| {
          if Slot(h, t, k, s.tables[main]) in s.tables[main].keys { NextSlotKeepsInv(h, s, t); } else { StoreKeepsInv(h, s, t); }
        }
      case Place(main, _, k, _) =>
        if main < |s.tables| {
          if Slot(h, t, k, s.tables[main]) in s.tables[main].keys { NextSlotKeepsInv(h, s, t); } else { StoreKeepsInv(h, s, t); }
        }
      case MigrateValue(_, _, _) => ValueKeepsInv(h, s, t);
      case PlaceValue(_, _, _, _) => ValueKeepsInv(h, s, t);
      case Count(_) => CountKeepsInv(h, s, t);
      case Locked(_) => LockKeepsInv(h, s, t);
      case Unlock(_, _) => LockKeepsInv(h, s, t);
      case TryLock(_, _) => if s.resizing { WalkKeepsInv(h, s, t); } else { LockKeepsInv(h, s, t); }
      case Resize(_, _) => ResizeKeepsInv(h, s, t);
      case Room(main, n) =>
        if main < |s.tables| {
          if n < Limit(s.tables[main].capacity) { CreateKeepsInv(h, s, t); } else { WalkKeepsInv(h, s, t); }
        }
      case _ => WalkKeepsInv(h, s, t);
    }
  }

  lemma WithoutMemoryKeepsInv(h: ThreadId -> nat, s: State, t: ThreadId)
    requires Inv(h, s)
    ensures Inv(h, WithoutMemory(s, t))
  {
    hide Inv, Slot, Findable, OrderOk, Injective, CapacitiesGrow, Passed;
    Known(h, s, t);
    var s' := WithoutMemory(s, t);
    if s' != s {
      AbsenceKept(s, s', t);
      GiveUpHistory(s, t, PcOf(s', t));
      hide HistoryOk, Undisturbed;
      QuietKeepsInv(h, s, s', t);
    }
  }

  lemma GiveUpHistory(s: State, t: ThreadId, pc: Pc)
    requires HistoryOk(s) && (InLock(pc) ==> InLock(PcOf(s, t))) && !pc.Resize?
    ensures HistoryOk(Goto(s, t, pc)) && Undisturbed(s, Goto(s, t, pc), t)
  {
    hide CapacitiesGrow, Injective, OrderOk;
    var s' := Goto(s, t, pc);
    SameOrder(s, s');
    forall u | u != t ensures PcOf(s', u) == PcOf(s, u) {
    }
  }

  lemma NextKeepsInv(h: ThreadId -> nat, s: State, e: Event)
    requires Inv(h, s)
    ensures Inv(h, Next(h, s, e))
  {
    hide Inv;
    Known(h, s, e.t);
    match e {
      case Advance(t) => StepThreadKeepsInv(h, s, t);
      case Begin(t) => if PcOf(s, t).Idle? { GotoKeepsInv(h, s, t, LoadMain); }
      case NoMemory(t) => WithoutMemoryKeepsInv(h, s, t);
      case Finish(t) => if PcOf(s, t).Returned? || PcOf(s, t).Failed? { GotoKeepsInv(h, s, t, Idle); }
    }
  }
}

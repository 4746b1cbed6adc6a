/**
 * The lock-free hash from threads to implicit producers, with concurrent growth, for any number of threads
 * (concurrentqueue.h:3286-3533, the build without thread-exit listeners). Each event is one atomic operation, or a
 * non-atomic access together with the atomic one before it. Allocations may fail.
 */
module ProducerHash {
  import opened Modular

  type ThreadId = nat
  type ProducerId = nat

  const INITIAL_IMPLICIT_PRODUCER_HASH_SIZE: nat := 32

  /** A table; position t of thread t's key is history (the inverse of keys). */
  datatype Table = Table(capacity: nat, keys: map<nat, ThreadId>, values: map<nat, ProducerId>, position: map<ThreadId, nat>)

  datatype Pc =
    | Idle
    | LoadMain
    | Probe(main: nat, table: nat, k: nat)             // about to look at the k-th slot after the hash
    | Migrate(main: nat, k: nat, value: ProducerId)    // found in an older table: copy to main
    | MigrateValue(main: nat, slot: nat, value: ProducerId)
    | Count(main: nat)
    | Check(main: nat, n: nat)
    | TryLock(main: nat, n: nat)
    | Locked(n: nat)
    | Resize(main: nat, n: nat)
    | Unlock(main: nat, n: nat)
    | Room(main: nat, n: nat)
    | Reload(n: nat)
    | Place(main: nat, n: nat, k: nat, value: ProducerId)
    | PlaceValue(main: nat, n: nat, slot: nat, value: ProducerId)
    | GiveUpLocked(n: nat)                             // no memory for a larger table: take the count back, unlock, return null
    | GiveUpUnlock
    | GiveUp(n: nat)                                   // no memory for a producer: take the count back, return null
    | Failed
    | Returned(value: ProducerId)

  datatype State = State(
    tables: seq<Table>,          // newest last; each table's prev is the one before it
    count: nat, resizing: bool, created: nat, pcs: map<ThreadId, Pc>,
    number: map<ThreadId, nat>,           // history: the count each thread drew and has not taken back
    order: seq<ThreadId>,                 // history: those threads, in the order they drew
    producer: map<ThreadId, ProducerId>   // history: the producer created for each thread
  )

  datatype Event = Begin(t: ThreadId) | Advance(t: ThreadId) | NoMemory(t: ThreadId) | Finish(t: ThreadId)

  function EmptyTable(capacity: nat): Table {
    Table(capacity, map[], map[], map[])
  }

  const INIT := State([EmptyTable(INITIAL_IMPLICIT_PRODUCER_HASH_SIZE)], 0, false, 0, map[], map[], [], map[])

  function PcOf(s: State, t: ThreadId): Pc { if t in s.pcs then s.pcs[t] else Idle }

  function Goto(s: State, t: ThreadId, pc: Pc): State { s.(pcs := s.pcs[t := pc]) }

  /** Capacities are powers of two, so the source's mask is a remainder. */
  function Slot(h: ThreadId -> nat, t: ThreadId, k: nat, table: Table): nat {
    if table.capacity == 0 then 0 else (h(t) + k) % table.capacity
  }

  /** Below this count a thread may insert: three quarters of the capacity, as the source rounds it. */
  function Limit(capacity: nat): nat { capacity / 2 + capacity / 4 }

  function Grown(capacity: nat, n: nat): (c: nat)
    requires capacity > 0
    ensures c >= capacity && n < c / 2
    decreases 2 * n + 2 - capacity
  {
    if n >= capacity / 2 then Grown(2 * capacity, n) else capacity
  }

  /** fetch_add on the count. */
  function Draw(s: State, t: ThreadId): State {
    s.(count := s.count + 1, number := s.number[t := s.count + 1], order := s.order + [t])
  }

  function Without(order: seq<ThreadId>, t: ThreadId): seq<ThreadId> {
    if order == [] then [] else if order[0] == t then order[1..] else [order[0]] + Without(order[1..], t)
  }

  /** fetch_sub on the count. */
  function TakeBack(s: State, t: ThreadId): State {
    s.(count := if s.count == 0 then 0 else s.count - 1, number := s.number - {t}, order := Without(s.order, t))
  }

  function Store(table: Table, slot: nat, t: ThreadId): Table {
    table.(keys := table.keys[slot := t], position := table.position[t := slot])
  }

  function SetTable(s: State, j: nat, table: Table): State
    requires j < |s.tables|
  {
    s.(tables := s.tables[j := table])
  }

  function Main(s: State): nat { if |s.tables| == 0 then 0 else |s.tables| - 1 }

  /** One step of thread t, whose id hashes to h(t). */
  function StepThread(h: ThreadId -> nat, s: State, t: ThreadId): State {
    match PcOf(s, t)
    case Idle => s
    case LoadMain => Goto(s, t, Probe(Main(s), Main(s), 0))
    case Probe(main, j, k) =>
      if j >= |s.tables| then s else
      var slot := Slot(h, t, k, s.tables[j]);
      if slot !in s.tables[j].keys then Goto(s, t, if j == 0 then Count(main) else Probe(main, j - 1, 0))
      else if s.tables[j].keys[slot] != t then Goto(s, t, Probe(main, j, k + 1))
      else if slot !in s.tables[j].values then s
      else
        var value := s.tables[j].values[slot];
        Goto(s, t, if j == main then Returned(value) else Migrate(main, 0, value))
    case Migrate(main, k, value) =>
      if main >= |s.tables| then s else
      var slot := Slot(h, t, k, s.tables[main]);
      if slot in s.tables[main].keys then Goto(s, t, Migrate(main, k + 1, value))
      else Goto(SetTable(s, main, Store(s.tables[main], slot, t)), t, MigrateValue(main, slot, value))
    case MigrateValue(main, slot, value) =>
      if main >= |s.tables| then s else
      Goto(SetTable(s, main, s.tables[main].(values := s.tables[main].values[slot := value])), t, Returned(value))
    case Count(main) =>
      Goto(Draw(s, t), t, Check(main, s.count + 1))
    case Check(main, n) =>
      if main >= |s.tables| then s else
      Goto(s, t, if n >= s.tables[main].capacity / 2 then TryLock(main, n) else Room(main, n))
    case TryLock(main, n) =>
      if s.resizing then Goto(s, t, Room(main, n)) else Goto(s.(resizing := true), t, Locked(n))
    case Locked(n) => Goto(s, t, Resize(Main(s), n))
    case Resize(main, n) =>
      if main >= |s.tables| || s.tables[main].capacity == 0 || n < s.tables[main].capacity / 2 then
        Goto(s, t, Unlock(main, n))
      else
        Goto(s.(tables := s.tables + [EmptyTable(Grown(2 * s.tables[main].capacity, n))]), t, Unlock(|s.tables|, n))
    case Unlock(main, n) => Goto(s.(resizing := false), t, Room(main, n))
    case Room(main, n) =>
      if main >= |s.tables| then s else
      if n < Limit(s.tables[main].capacity) then
        Goto(s.(created := s.created + 1, producer := s.producer[t := s.created]), t, Place(main, n, 0, s.created))
      else Goto(s, t, Reload(n))
    case Reload(n) => Goto(s, t, Check(Main(s), n))
    case Place(main, n, k, value) =>
      if main >= |s.tables| then s else
      var slot := Slot(h, t, k, s.tables[main]);
      if slot in s.tables[main].keys then Goto(s, t, Place(main, n, k + 1, value))
      else Goto(SetTable(s, main, Store(s.tables[main], slot, t)), t, PlaceValue(main, n, slot, value))
    case PlaceValue(main, n, slot, value) =>
      if main >= |s.tables| then s else
      Goto(SetTable(s, main, s.tables[main].(values := s.tables[main].values[slot := value])), t, Returned(value))
    case GiveUpLocked(n) => Goto(TakeBack(s, t), t, GiveUpUnlock)
    case GiveUpUnlock => Goto(s.(resizing := false), t, Failed)
    case GiveUp(n) => Goto(TakeBack(s, t), t, Failed)
    case Failed => s
    case Returned(_) => s
  }

  /** What thread t does when the allocation it is about to make fails; nothing, when it is not about to make one. */
  function WithoutMemory(s: State, t: ThreadId): State {
    match PcOf(s, t)
    case Resize(main, n) =>
      if main < |s.tables| && s.tables[main].capacity > 0 && n >= s.tables[main].capacity / 2 then Goto(s, t, GiveUpLocked(n)) else s
    case Room(main, n) => if main < |s.tables| && n < Limit(s.tables[main].capacity) then Goto(s, t, GiveUp(n)) else s
    case _ => s
  }

  function Next(h: ThreadId -> nat, s: State, e: Event): State {
    match e
    case Begin(t) => if PcOf(s, t).Idle? then Goto(s, t, LoadMain) else s
    case Advance(t) => StepThread(h, s, t)
    case NoMemory(t) => WithoutMemory(s, t)
    case Finish(t) => if PcOf(s, t).Returned? || PcOf(s, t).Failed? then Goto(s, t, Idle) else s
  }

  // ---- the invariant ----

  /** The first k slots of t's probe sequence are taken, by others. */
  ghost predicate Passed(h: ThreadId -> nat, s: State, t: ThreadId, j: nat, k: nat) {
    && j < |s.tables| && k < s.tables[j].capacity
    && (forall e :: 0 <= e < k ==> Slot(h, t, e, s.tables[j]) in s.tables[j].keys)
  }

  /** Thread t sits in the table where its own probing will find it before an empty slot. */
  ghost predicate Findable(h: ThreadId -> nat, table: Table, t: ThreadId)
    requires t in table.position
  {
    exists d: nat :: d < table.capacity && Slot(h, t, d, table) == table.position[t]
      && forall e :: 0 <= e < d ==> Slot(h, t, e, table) in table.keys
  }

  predicate Absent(s: State, t: ThreadId, j: nat) {
    j < |s.tables| ==> t !in s.tables[j].position
  }

  /** The slot whose value thread t has yet to write. */
  predicate Writing(pc: Pc, j: nat) {
    (pc.MigrateValue? || pc.PlaceValue?) && pc.main == j
  }

  ghost predicate MemberOk(h: ThreadId -> nat, s: State, j: nat, t: ThreadId)
    requires j < |s.tables| && t in s.tables[j].position
  {
    var table := s.tables[j];
    && table.position[t] in table.keys && table.keys[table.position[t]] == t
    && t in s.number && s.number[t] < Limit(table.capacity)
    && t in s.producer
    && Findable(h, table, t)
    && (!Writing(PcOf(s, t), j) ==> table.position[t] in table.values && table.values[table.position[t]] == s.producer[t])
  }

  ghost predicate TableOk(h: ThreadId -> nat, s: State, j: nat)
    requires j < |s.tables|
  {
    var table := s.tables[j];
    && table.capacity > 0
    && (forall x :: x in table.keys ==>
          x < table.capacity && table.keys[x] in table.position && table.position[table.keys[x]] == x)
    && (forall t :: t in table.position ==> MemberOk(h, s, j, t))
  }

  /** Thread t has drawn a count and is on its way to its first insertion. */
  predicate Inserting(pc: Pc) {
    pc.Check? || pc.TryLock? || pc.Locked? || pc.Resize? || pc.Unlock? || pc.Room? || pc.Reload? || pc.Place?
    || pc.GiveUpLocked? || pc.GiveUp?
  }

  function Drawn(pc: Pc): nat
    requires Inserting(pc) || pc.PlaceValue?
  {
    pc.n
  }

  ghost predicate Somewhere(s: State, t: ThreadId) {
    exists j :: 0 <= j < |s.tables| && t in s.tables[j].position
  }

  /** How far t has come: drawn a count, created its producer, been inserted. */
  ghost predicate Progress(s: State, t: ThreadId) {
    var pc := PcOf(s, t);
    && (Inserting(pc) ==> t in s.number && s.number[t] == Drawn(pc) && forall j :: Absent(s, t, j))
    && (pc.Check? || pc.TryLock? || pc.Resize? || pc.Unlock? || pc.Room? ==> pc.main < |s.tables|)
    && (t in s.producer ==> t in s.number && (pc.Place? || Somewhere(s, t)))
    && (t in s.number ==> Inserting(pc) || t in s.producer)
    && (Inserting(pc) && !pc.Place? ==> t !in s.producer)
    && (pc.GiveUpUnlock? || pc.Failed? ==> t !in s.number && forall j :: Absent(s, t, j))
  }

  /** t's probe has missed its own key so far. */
  ghost predicate Missed(h: ThreadId -> nat, table: Table, t: ThreadId, k: nat) {
    t in table.position ==> forall e :: 0 <= e < k ==> Slot(h, t, e, table) != table.position[t]
  }

  /** The values t carries are right. */
  ghost predicate Carries(h: ThreadId -> nat, s: State, t: ThreadId) {
    match PcOf(s, t)
       case Probe(main, j, k) =>
         && j <= main < |s.tables| && Passed(h, s, t, j, k) && (forall i :: j < i ==> Absent(s, t, i))
         && Missed(h, s.tables[j], t, k)
       case Migrate(main, k, value) =>
         && Passed(h, s, t, main, k) && Absent(s, t, main)
         && t in s.number && s.number[t] < Limit(s.tables[main].capacity)
         && t in s.producer && s.producer[t] == value
       case MigrateValue(main, slot, value) =>
         && main < |s.tables| && t in s.tables[main].position && s.tables[main].position[t] == slot
         && t in s.producer && s.producer[t] == value
       case Count(main) => main < |s.tables| && forall j :: Absent(s, t, j)
       case Place(main, n, k, value) =>
         && Passed(h, s, t, main, k) && n < Limit(s.tables[main].capacity)
         && t in s.producer && s.producer[t] == value
       case PlaceValue(main, n, slot, value) =>
         && main < |s.tables| && t in s.tables[main].position && s.tables[main].position[t] == slot
         && t in s.producer && s.producer[t] == value
       case Returned(value) => t in s.producer && s.producer[t] == value
       case _ => true
  }

  ghost predicate ThreadOk(h: ThreadId -> nat, s: State, t: ThreadId) {
    Progress(s, t) && Carries(h, s, t)
  }

  ghost predicate Injective(m: map<ThreadId, nat>) {
    forall t, u :: t in m && u in m && t != u ==> m[t] != m[u]
  }

  ghost predicate CapacitiesGrow(tables: seq<Table>) {
    forall i, j :: 0 <= i < j < |tables| ==> tables[i].capacity < tables[j].capacity
  }

  /**
   * The count is that of the threads whose draws stand; each drew at least its place among them, since those that drew
   * before it and stand now stood then.
   */
  ghost predicate OrderOk(s: State) {
    && s.count == |s.order|
    && (forall p :: 0 <= p < |s.order| ==> s.order[p] in s.number && s.number[s.order[p]] >= p + 1)
    && (forall t :: t in s.number ==> t in s.order)
    && (forall p, q :: 0 <= p < q < |s.order| ==> s.order[p] != s.order[q])
  }

  ghost predicate HistoryOk(s: State) {
    && |s.tables| > 0
    && OrderOk(s)
    && (forall t :: t in s.producer ==> s.producer[t] < s.created)
    && Injective(s.producer)
    && CapacitiesGrow(s.tables)
    && (forall t :: InLock(PcOf(s, t)) ==> s.resizing)
    && (forall t :: PcOf(s, t).Resize? ==> PcOf(s, t).main == Main(s))
    && (forall t, u :: InLock(PcOf(s, t)) && InLock(PcOf(s, u)) ==> t == u)
  }

  predicate InLock(pc: Pc) {
    pc.Locked? || pc.Resize? || pc.Unlock? || pc.GiveUpLocked? || pc.GiveUpUnlock?
  }

  ghost predicate Inv(h: ThreadId -> nat, s: State) {
    && HistoryOk(s)
    && (forall j :: 0 <= j < |s.tables| ==> TableOk(h, s, j))
    && (forall t :: ThreadOk(h, s, t))
  }

  // ---- what the invariant says of one thread, table, member ----

  lemma Known(h: ThreadId -> nat, s: State, t: ThreadId)
    requires Inv(h, s)
    ensures Progress(s, t) && Carries(h, s, t) && HistoryOk(s)
  {
    hide Progress, Carries, HistoryOk;
    assert ThreadOk(h, s, t);
  }

  lemma TableKnown(h: ThreadId -> nat, s: State, j: nat)
    requires Inv(h, s) && j < |s.tables|
    ensures TableOk(h, s, j)
  {
    hide TableOk, HistoryOk;
  }

  lemma MemberKnown(h: ThreadId -> nat, s: State, j: nat, t: ThreadId)
    requires j < |s.tables| && TableOk(h, s, j) && t in s.tables[j].position
    ensures s.tables[j].position[t] in s.tables[j].keys && Findable(h, s.tables[j], t)
  {
    hide Findable;
    assert MemberOk(h, s, j, t);
  }

  // ---- room in every table ----

  lemma LimitIsThreeQuarters(capacity: nat)
    ensures 4 * Limit(capacity) <= 3 * capacity
  {
  }

  /** The place of t in the order. */
  function IndexOf(order: seq<ThreadId>, t: ThreadId): (p: nat)
    ensures t in order ==> p < |order| && order[p] == t
  {
    if order == [] || order[0] == t then 0 else 1 + IndexOf(order[1..], t)
  }

  /** The place in the order of the thread in each occupied slot. */
  function Places(s: State, table: Table): map<nat, nat> {
    map x | x in table.keys :: IndexOf(s.order, table.keys[x])
  }

  lemma OccupantsDrew(h: ThreadId -> nat, s: State, j: nat)
    requires Inv(h, s) && j < |s.tables|
    ensures forall x :: x in s.tables[j].keys ==>
              s.tables[j].keys[x] in s.order && IndexOf(s.order, s.tables[j].keys[x]) + 1 < Limit(s.tables[j].capacity)
    ensures forall x, y :: x in s.tables[j].keys && y in s.tables[j].keys && x != y ==>
              s.tables[j].keys[x] != s.tables[j].keys[y]
    ensures s.tables[j].capacity > 0
  {
    hide Inv, Limit, CapacitiesGrow, Injective, IndexOf;
    var table := s.tables[j];
    Known(h, s, 0);
    TableKnown(h, s, j);
    forall x | x in table.keys
      ensures table.keys[x] in s.order && IndexOf(s.order, table.keys[x]) + 1 < Limit(table.capacity)
    {
      assert MemberOk(h, s, j, table.keys[x]);
      assert s.order[IndexOf(s.order, table.keys[x])] == table.keys[x];
    }
  }

  /**
   * Occupants have distinct places among the threads whose draws stand, each below the count its thread drew and so below
   * the limit; so there are fewer of them than that.
   */
  lemma UnderThreeQuarters(h: ThreadId -> nat, s: State, j: nat)
    requires Inv(h, s) && j < |s.tables|
    ensures |s.tables[j].keys| < s.tables[j].capacity && 4 * |s.tables[j].keys| <= 3 * s.tables[j].capacity
    ensures |s.tables[j].keys| > 0 ==> 4 * |s.tables[j].keys| < 3 * s.tables[j].capacity
  {
    hide Inv, Limit, IndexOf;
    var table := s.tables[j];
    OccupantsDrew(h, s, j);
    if |table.keys| > 0 {
      var x :| x in table.keys;
      var places := Places(s, table);
      assert places.Keys == table.keys.Keys;
      forall x, y | x in places && y in places && x != y ensures places[x] != places[y] {
        assert s.order[places[x]] == table.keys[x] && s.order[places[y]] == table.keys[y];
      }
      Pigeonhole(places, Limit(table.capacity) - 1);
      LimitIsThreeQuarters(table.capacity);
    }
  }

  function Visited(h: ThreadId -> nat, t: ThreadId, table: Table, k: nat): set<nat> {
    set e | 0 <= e < k :: Slot(h, t, e, table)
  }

  lemma {:induction false} ProbesAreDistinct(h: ThreadId -> nat, t: ThreadId, table: Table, k: nat)
    requires k <= table.capacity
    ensures |Visited(h, t, table, k)| == k
  {
    if k > 0 {
      ProbesAreDistinct(h, t, table, k - 1);
      forall e | 0 <= e < k - 1 ensures Slot(h, t, e, table) != Slot(h, t, k - 1, table) {
        if Slot(h, t, e, table) == Slot(h, t, k - 1, table) {
          SameRemainder(h(t) + e, h(t) + k - 1, table.capacity);
        }
      }
      assert Visited(h, t, table, k) == Visited(h, t, table, k - 1) + {Slot(h, t, k - 1, table)};
    }
  }

  /** A probe that finds its slot taken has another slot to go to. */
  lemma ProbeGoesOn(h: ThreadId -> nat, s: State, t: ThreadId, j: nat, k: nat)
    requires Inv(h, s) && Passed(h, s, t, j, k) && Slot(h, t, k, s.tables[j]) in s.tables[j].keys
    ensures Passed(h, s, t, j, k + 1)
  {
    var table := s.tables[j];
    UnderThreeQuarters(h, s, j);
    ProbesAreDistinct(h, t, table, k + 1);
    assert Visited(h, t, table, k + 1) <= table.keys.Keys;
    SubsetSize(Visited(h, t, table, k + 1), table.keys.Keys);
  }

  /** Up to where t itself sits, t's way through the table is full. */
  lemma WayIsFull(h: ThreadId -> nat, table: Table, t: ThreadId, k: nat)
    requires t in table.position && Findable(h, table, t) && table.position[t] in table.keys
    requires Missed(h, table, t, k)
    ensures Slot(h, t, k, table) in table.keys
  {
    hide Slot;
  }

  /** An empty slot on t's way means t is not in the table. */
  lemma EmptySlotMeansAbsent(h: ThreadId -> nat, s: State, t: ThreadId, j: nat, k: nat)
    requires Inv(h, s) && Passed(h, s, t, j, k) && Slot(h, t, k, s.tables[j]) !in s.tables[j].keys
    requires Missed(h, s.tables[j], t, k)
    ensures Absent(s, t, j)
  {
    hide Inv, Findable, Missed, Slot;
    TableKnown(h, s, j);
    if t in s.tables[j].position {
      MemberKnown(h, s, j, t);
      WayIsFull(h, s.tables[j], t, k);
    }
  }
}

/**
 * All implicit producers of one queue and the pool of blocks they share: runs in which any number of enqueuers and
 * consumers take turns, one atomic operation at a time.
 */
module BlockPool {
  import opened Options
  import opened CircularIndex
  import opened Modular
  import opened BlockIndex
  import opened BlockIndexSafety
  import opened SubQueue
  import Q = SubQueueSafety
  import C = DequeueCounters

  datatype System = System(shared: Shared, producers: map<ProducerId, Producer>)

  datatype Event = Create(i: ProducerId, garbage: Option<BlockId>) | Act(i: ProducerId, a: Action)

  const INIT := System(NEW_SHARED, map[])

  function Next(y: System, e: Event): System {
    match e
    case Create(i, garbage) => if i in y.producers then y else y.(producers := y.producers[i := NewProducer(garbage)])
    case Act(i, a) =>
      if i !in y.producers then y
      else
        var (p, s) := Step(y.producers[i], y.shared, a);
        System(s, y.producers[i := p])
  }

  ghost predicate Windowed(y: System) {
    forall i :: i in y.producers ==> C.Windowed(y.producers[i].counters)
  }

  // ---- whose each block is ----

  ghost predicate OwnedApart(p: Producer, s: Shared) {
    forall b: BlockId :: Owns(p, b) ==> b !in s.pool && b < s.created
  }

  ghost predicate ProducerOk(y: System, i: ProducerId)
    requires i in y.producers
  {
    SubQueue.Inv(y.producers[i], y.shared) && Distinct(y.producers[i]) && OwnedApart(y.producers[i], y.shared)
  }

  ghost predicate Apart(p: Producer, r: Producer) {
    forall b: BlockId :: !(Owns(p, b) && Owns(r, b))
  }

  ghost predicate PoolOk(s: Shared) {
    INITIAL_BLOCK_POOL_SIZE <= s.created && forall b :: b in s.pool ==> b < INITIAL_BLOCK_POOL_SIZE
  }

  ghost predicate AllApart(producers: map<ProducerId, Producer>) {
    forall i, j :: i in producers && j in producers && i != j ==> Apart(producers[i], producers[j])
  }

  /** Every block of the initial pool is in the pool or in some producer's hands. */
  ghost predicate NoneLost(s: Shared, producers: map<ProducerId, Producer>) {
    forall b: BlockId :: b < INITIAL_BLOCK_POOL_SIZE ==> b in s.pool || exists i :: i in producers && Owns(producers[i], b)
  }

  ghost predicate Inv(y: System) {
    && PoolOk(y.shared) && AllApart(y.producers) && NoneLost(y.shared, y.producers)
    && forall i :: i in y.producers ==> ProducerOk(y, i)
  }

  /**
   * What a step of one producer may do with blocks: touch its own, draw one from the supply and keep it, release one to
   * where it came from.
   */
  ghost predicate Borrows(p: Producer, s: Shared, p': Producer, s': Shared) {
    && (forall b: BlockId :: BlockAt(s', b) != BlockAt(s, b) ==> Owns(p, b))
    && (forall b: BlockId :: Owns(p', b) ==> Owns(p, b) || (b in s.pool && b !in s'.pool) || s.created <= b < s'.created)
    && (forall b: BlockId :: b in s'.pool ==> b in s.pool || (Owns(p, b) && !Owns(p', b) && b < INITIAL_BLOCK_POOL_SIZE))
    && s.created <= s'.created
    && (forall b: BlockId :: b in s.pool && b !in s'.pool ==> Owns(p', b))
    && (forall b: BlockId :: Owns(p, b) && !Owns(p', b) ==> b in s'.pool || b >= INITIAL_BLOCK_POOL_SIZE)
  }

  ghost predicate SameBlocks(p: Producer, s: Shared, s': Shared) {
    forall b: BlockId :: Owns(p, b) ==> BlockAt(s', b) == BlockAt(s, b)
  }

  lemma SameOwner(p: Producer, p': Producer)
    requires HeldBlocks(p'.enqueue) == HeldBlocks(p.enqueue)
    requires forall q: int, b: BlockId :: OwnsNumber(p'.index, q, b) <==> OwnsNumber(p.index, q, b)
    ensures forall b: BlockId :: Owns(p', b) <==> Owns(p, b)
    ensures Distinct(p) ==> Distinct(p')
  {
    forall b: BlockId ensures Owns(p', b) <==> Owns(p, b) {
      if q: int :| OwnsNumber(p.index, q, b) { assert OwnsNumber(p'.index, q, b); }
      if q: int :| OwnsNumber(p'.index, q, b) { assert OwnsNumber(p.index, q, b); }
    }
  }

  /** Steps that neither take nor give a block, and write at most to one they hold. */
  lemma OwnersKept(p: Producer, s: Shared, p': Producer, s': Shared)
    requires forall b: BlockId :: Owns(p', b) <==> Owns(p, b)
    requires s'.pool == s.pool && s'.created == s.created
    requires forall b: BlockId :: BlockAt(s', b) != BlockAt(s, b) ==> Owns(p, b)
    ensures Borrows(p, s, p', s')
  {
  }

  /** Steps that moreover do not publish one. */
  lemma KeepsBlocks(p: Producer, s: Shared, p': Producer, s': Shared)
    requires HeldBlocks(p'.enqueue) == HeldBlocks(p.enqueue)
    requires forall q: int, b: BlockId :: OwnsNumber(p'.index, q, b) <==> OwnsNumber(p.index, q, b)
    requires s'.pool == s.pool && s'.created == s.created
    requires forall b: BlockId :: BlockAt(s', b) != BlockAt(s, b) ==> Owns(p, b)
    ensures Borrows(p, s, p', s') && (Distinct(p) ==> Distinct(p'))
  {
    SameOwner(p, p');
    OwnersKept(p, s, p', s');
  }

  lemma RequisitionBorrows(p: Producer, s: Shared, supply: Supply)
    requires p.enqueue.Requisition? && Distinct(p) && OwnedApart(p, s)
    ensures var (p', s') := StepEnqueue(p, s, supply, false, None); Borrows(p, s, p', s') && Distinct(p')
  {
    var (p', s') := StepEnqueue(p, s, supply, false, None);
    var held := HeldBlocks(p'.enqueue);
    forall q: int, b: BlockId | OwnsNumber(p'.index, q, b) ensures b !in held && Owns(p, b) {
      assert OwnsNumber(p.index, q, b);
      assert Owns(p, b);
    }
    forall b: BlockId ensures Owns(p', b) <==> Owns(p, b) || b in held {
      if q: int :| OwnsNumber(p.index, q, b) { assert OwnsNumber(p'.index, q, b); }
    }
  }

  lemma PublishBorrows(p: Producer, s: Shared)
    requires p.enqueue.PublishBlock? && Distinct(p) && |p.index.phase| == |p.index.blockOf|
    ensures var p' := StepEnqueue(p, s, Exhausted, false, None).0; Borrows(p, s, p', s) && Distinct(p')
  {
    hide Base;
    var p' := StepEnqueue(p, s, Exhausted, false, None).0;
    var n := |p.index.blockOf|;
    assert HeldBlocks(p'.enqueue) == [] && HeldBlocks(p.enqueue) == [p.enqueue.block];
    forall q: int, b: BlockId ensures OwnsNumber(p'.index, q, b) <==> OwnsNumber(p.index, q, b) || (q == n && b == p.enqueue.block) {
    }
    forall b: BlockId ensures Owns(p', b) <==> Owns(p, b) {
      if q: int :| OwnsNumber(p'.index, q, b) { assert OwnsNumber(p.index, q, b) || q == n; }
      if q: int :| OwnsNumber(p.index, q, b) { assert OwnsNumber(p'.index, q, b); }
      assert OwnsNumber(p'.index, n, p.enqueue.block);
    }
    hide StepEnqueue, HeldBlocks;
    OwnersKept(p, s, p', s);
  }

  /** A block whose allocation is undone goes back to the pool in the step that ends its ownership. */
  lemma UndoBlocksBorrows(p: Producer, s: Shared)
    requires p.enqueue.UndoBlocks? && p.enqueue.chain != [] && Distinct(p)
    ensures var (p', s') := StepEnqueue(p, s, Exhausted, false, None); Borrows(p, s, p', s') && Distinct(p')
    ensures var (p', s') := StepEnqueue(p, s, Exhausted, false, None);
      Owns(p, p.enqueue.chain[0]) && !Owns(p', p.enqueue.chain[0])
  {
    var (p', s') := StepEnqueue(p, s, Exhausted, false, None);
    var chain, rest := p.enqueue.chain, HeldBlocks(p'.enqueue);
    assert rest == chain[1..];
    forall q: int, b: BlockId | OwnsNumber(p'.index, q, b) ensures b !in chain {
      assert OwnsNumber(p.index, q, b);
    }
    forall j | 0 <= j < |rest| ensures rest[j] != chain[0] {
      assert HeldBlocks(p.enqueue)[0] != HeldBlocks(p.enqueue)[j + 1];
    }
    forall i, j | 0 <= i < j < |rest| ensures rest[i] != rest[j] {
      assert HeldBlocks(p.enqueue)[i + 1] != HeldBlocks(p.enqueue)[j + 1];
    }
    assert chain == [chain[0]] + rest;
    assert Owns(p, chain[0]);
    forall b: BlockId ensures Owns(p', b) <==> Owns(p, b) && b != chain[0] {
      if q: int :| OwnsNumber(p'.index, q, b) { assert OwnsNumber(p.index, q, b); }
      if q: int :| OwnsNumber(p.index, q, b) { assert OwnsNumber(p'.index, q, b); }
    }
  }

  // ---- unwinding ----

  /** The blocks of the numbers withdrawn are live, and become the chain. */
  lemma UnwindOwns(p: Producer)
    requires Distinct(p) && HeldBlocks(p.enqueue) == [] && |p.index.phase| == |p.index.blockOf|
    requires forall r :: FirstFree(p.counters.tail) <= r < |p.index.blockOf| ==> p.index.phase[r].Live?
    ensures Distinct(Unwind(p)) && forall b: BlockId :: Owns(Unwind(p), b) <==> Owns(p, b)
  {
    hide FirstFree;
    var p', n, x := Unwind(p), FirstFree(p.counters.tail), p.index;
    if |x.blockOf| <= n {
      SameOwner(p, p');
    } else {
      var chain := x.blockOf[n..];
      forall j | 0 <= j < |chain| ensures OwnsNumber(x, n + j, chain[j]) {
      }
      forall q: int, b: BlockId ensures OwnsNumber(p'.index, q, b) <==> OwnsNumber(x, q, b) && q < n {
      }
      forall q: int, b: BlockId | OwnsNumber(p'.index, q, b) ensures b !in chain {
        forall j | 0 <= j < |chain| ensures chain[j] != b {
          assert OwnsNumber(x, n + j, chain[j]);
        }
      }
      forall i, j | 0 <= i < j < |chain| ensures chain[i] != chain[j] {
        assert OwnsNumber(x, n + i, chain[i]) && OwnsNumber(x, n + j, chain[j]);
      }
      forall b: BlockId ensures Owns(p', b) <==> Owns(p, b) {
        if q: int :| OwnsNumber(x, q, b) {
          if q < n { assert OwnsNumber(p'.index, q, b); } else { assert chain[q - n] == b; }
        }
        if q: int :| OwnsNumber(p'.index, q, b) { assert OwnsNumber(x, q, b); }
        if j :| 0 <= j < |chain| && chain[j] == b { assert OwnsNumber(x, n + j, b); }
      }
    }
  }

  lemma UnwindBorrows(p: Producer, s: Shared, x: Index, s': Shared)
    requires SubQueue.Inv(p, s) && Distinct(p) && HeldBlocks(p.enqueue) == []
    requires x.blockOf == p.index.blockOf && x.phase == p.index.phase
    requires s'.pool == s.pool && s'.created == s.created
    requires forall b: BlockId :: BlockAt(s', b) != BlockAt(s, b) ==> Owns(p, b)
    ensures Borrows(p, s, Unwind(p.(index := x)), s') && Distinct(Unwind(p.(index := x)))
  {
    hide SubQueue.Inv, Distinct, Borrows, Unwind, BlockAt;
    var p1 := p.(index := x);
    Q.Known(p, s, 0);
    hide IndexOk, EnqueueOk, HistoryOk, FillingOk, ThreadOk, C.Inv;
    if FirstFree(p.counters.tail) < |p.index.blockOf| { Q.ChainKnown(p, s, FirstFree(p.counters.tail)); }
    hide ContentsOk;
    SameOwner(p, p1);
    UnwindOwns(p1);
    hide Owns;
    OwnersKept(p, s, Unwind(p1), s');
  }

  // ---- enqueue ----

  lemma OtherEnqueueBorrows(p: Producer, s: Shared, supply: Supply, fails: bool, garbage: Option<BlockId>)
    requires !p.enqueue.Requisition? && !p.enqueue.PublishBlock? && !p.enqueue.UndoBlocks? && !p.enqueue.Fill?
    requires !p.enqueue.Unbuild? && !p.enqueue.LoadHead? && !(p.enqueue.Grow? && fails)
    requires !(p.enqueue.UndoValue? && p.enqueue.held.None?)
    ensures var (p', s') := StepEnqueue(p, s, supply, fails, garbage);
      && p'.index.blockOf == p.index.blockOf && p'.index.phase == p.index.phase
      && HeldBlocks(p'.enqueue) == HeldBlocks(p.enqueue) && s'.pool == s.pool && s'.created == s.created
      && (s'.blocks == s.blocks
          || exists b: BlockId :: b in HeldBlocks(p.enqueue) && forall c: BlockId :: c != b ==> BlockAt(s', c) == BlockAt(s, c))
  {
    hide Ring, Ord, Offset, Base, Doubled, LookedUp;
    if p.enqueue.Reset? || p.enqueue.Construct? { assert p.enqueue.block in HeldBlocks(p.enqueue); }
  }

  lemma EnqueueBorrows(p: Producer, s: Shared, supply: Supply, fails: bool, garbage: Option<BlockId>)
    requires SubQueue.Inv(p, s) && Distinct(p) && OwnedApart(p, s)
    ensures var (p', s') := StepEnqueue(p, s, supply, fails, garbage); Borrows(p, s, p', s') && Distinct(p')
  {
    hide SubQueue.Inv, OwnedApart, Borrows, Distinct;
    Q.Known(p, s, 0);
    hide IndexOk, HistoryOk, FillingOk, ThreadOk;
    var (p', s') := StepEnqueue(p, s, supply, fails, garbage);
    if p.enqueue.Requisition? {
      RequisitionBorrows(p, s, supply);
    } else if p.enqueue.PublishBlock? {
      PublishBorrows(p, s);
    } else if p.enqueue.UndoBlocks? {
      assert p.enqueue.chain != [];
      UndoBlocksBorrows(p, s);
    } else if p.enqueue.Fill? {
      FillBorrows(p, s, fails);
    } else if p.enqueue.Unbuild? {
      UnbuildBorrows(p, s);
    } else if p.enqueue.LoadHead? {
      LoadHeadBorrows(p, s);
    } else {
      hide EnqueueOk;
      if (p.enqueue.Grow? && fails) || (p.enqueue.UndoValue? && p.enqueue.held.None?) {
        RetractBorrows(p, s);
      } else {
        OtherEnqueueBorrows(p, s, supply, fails, garbage);
        hide StepEnqueue;
        KeepsBlocks(p, s, p', s');
      }
    }
  }

  lemma LoadHeadBorrows(p: Producer, s: Shared)
    requires SubQueue.Inv(p, s) && Distinct(p) && p.enqueue.LoadHead?
    ensures var p' := StepEnqueue(p, s, Exhausted, false, None).0; Borrows(p, s, p', s) && Distinct(p')
  {
    hide SubQueue.Inv, Distinct, Borrows, Unwind;
    UnwindBorrows(p, s, p.index, s);
    KeepsBlocks(p, s, SetEnqueue(p, LoadKey(p.enqueue.job)), s);
  }

  lemma RetractBorrows(p: Producer, s: Shared)
    requires SubQueue.Inv(p, s) && Distinct(p) && (p.enqueue.Grow? || (p.enqueue.UndoValue? && p.enqueue.held.None?))
    ensures var p' := StepEnqueue(p, s, Exhausted, true, None).0; Borrows(p, s, p', s) && Distinct(p')
  {
    hide SubQueue.Inv, Distinct, Borrows, Unwind;
    UnwindBorrows(p, s, if p.enqueue.Grow? then p.index else SetValue(p.index, p.enqueue.entry, None), s);
  }

  lemma UnbuildFromBorrows(p: Producer, s: Shared, s': Shared, i: nat, built: nat)
    requires SubQueue.Inv(p, s) && Distinct(p) && HeldBlocks(p.enqueue) == []
    requires s'.pool == s.pool && s'.created == s.created
    requires forall b: BlockId :: BlockAt(s', b) != BlockAt(s, b) ==> Owns(p, b)
    ensures Borrows(p, s, UnbuildFrom(p, i, built), s') && Distinct(UnbuildFrom(p, i, built))
  {
    hide SubQueue.Inv, Distinct, Borrows, Unwind, Owns, BlockAt;
    UnwindBorrows(p, s, p.index, s');
    KeepsBlocks(p, s, SetEnqueue(p, Unbuild(i, built)), s');
  }

  /** Building and destroying happen in blocks of one's own. */
  lemma BuildingInOwn(p: Producer, s: Shared, j: nat)
    requires SubQueue.Inv(p, s)
    requires var pc := p.enqueue;
      if pc.Unbuild? then j < pc.built else (pc.Fill? || pc.StoreIndex?) && j < |Elements(pc.job)|
    ensures Owns(p, BlockOf(p.index, p.counters.tail + j))
  {
    hide SubQueue.Inv, BlockOf, Ord;
    Q.Known(p, s, 0);
    Q.HasPlace(p.index, p.counters.tail, p.enqueue, j);
    hide IndexOk, EnqueueOk, FillingOk, ContentsOk, HistoryOk, ThreadOk;
    Q.UpcomingIsLive(p, s, p.counters.tail + j);
  }

  lemma FillBorrows(p: Producer, s: Shared, fails: bool)
    requires SubQueue.Inv(p, s) && Distinct(p) && p.enqueue.Fill?
    ensures var (p', s') := StepEnqueue(p, s, Exhausted, fails, None); Borrows(p, s, p', s') && Distinct(p')
  {
    hide SubQueue.Inv, Distinct, Borrows, UnbuildFrom, BlockOf, Owns;
    var (p', s') := StepEnqueue(p, s, Exhausted, fails, None);
    if fails || p.enqueue.i >= |Elements(p.enqueue.job)| {
      UnbuildFromBorrows(p, s, s, 0, p.enqueue.i);
    } else {
      BuildingInOwn(p, s, p.enqueue.i);
      KeepsBlocks(p, s, p', s');
    }
  }

  lemma UnbuildBorrows(p: Producer, s: Shared)
    requires SubQueue.Inv(p, s) && Distinct(p) && p.enqueue.Unbuild?
    ensures var (p', s') := StepEnqueue(p, s, Exhausted, false, None); Borrows(p, s, p', s') && Distinct(p')
  {
    hide SubQueue.Inv, Distinct, Borrows, UnbuildFrom, BlockOf, Owns;
    var s' := StepEnqueue(p, s, Exhausted, false, None).1;
    if p.enqueue.i < p.enqueue.built { BuildingInOwn(p, s, p.enqueue.i); }
    UnbuildFromBorrows(p, s, s', p.enqueue.i + 1, p.enqueue.built);
  }

  // ---- the same for dequeue ----

  lemma PlaceBorrows(p: Producer, s: Shared, p': Producer)
    requires p' == p.(work := p'.work, got := p'.got, counters := p'.counters) && Distinct(p)
    ensures Borrows(p, s, p', s) && Distinct(p')
  {
    KeepsBlocks(p, s, p', s);
  }

  lemma SetEmptyBorrows(p: Producer, s: Shared, t: ThreadId)
    requires SubQueue.Inv(p, s) && Distinct(p) && t in p.work && p.work[t].SetEmpty?
    ensures var (p', s') := StepWork(p, s, t, p.work[t]); Borrows(p, s, p', s') && Distinct(p')
  {
    hide SubQueue.Inv, Distinct, Borrows, Ord, NextBlock, Indices, Range;
    Q.EmptyingKnown(p, s, t);
    var (p', s') := StepWork(p, s, t, p.work[t]);
    assert OwnsNumber(p.index, Ord(p.work[t].start), p.work[t].block);
    KeepsBlocks(p, s, p', s');
  }

  lemma ClearEntryBorrows(p: Producer, s: Shared, t: ThreadId)
    requires SubQueue.Inv(p, s) && Distinct(p) && t in p.work && p.work[t].ClearEntry?
    ensures var (p', s') := StepWork(p, s, t, p.work[t]); Borrows(p, s, p', s') && Distinct(p')
  {
    hide SubQueue.Inv, Distinct, Borrows, Ord, Range, NumberOk, StartOk;
    Q.RetiringKnown(p, s, t);
    var (p', s') := StepWork(p, s, t, p.work[t]);
    KeepsBlocks(p, s, p', s');
  }

  /** The block goes back to the pool in the step that ends its ownership. */
  lemma GiveBackBorrows(p: Producer, s: Shared, t: ThreadId)
    requires SubQueue.Inv(p, s) && Distinct(p) && t in p.work && p.work[t].GiveBack?
    ensures var (p', s') := StepWork(p, s, t, p.work[t]); Borrows(p, s, p', s') && Distinct(p')
    ensures var (p', s') := StepWork(p, s, t, p.work[t]); Owns(p, p.work[t].block) && !Owns(p', p.work[t].block)
  {
    hide SubQueue.Inv, Ord, Range, NumberOk, StartOk, NextBlock;
    Q.RetiringKnown(p, s, t);
    var w, q := p.work[t], Ord(p.work[t].start);
    var (p', s') := StepWork(p, s, t, w);
    assert OwnsNumber(p.index, q, w.block);
    forall r: int, b: BlockId ensures OwnsNumber(p'.index, r, b) <==> OwnsNumber(p.index, r, b) && r != q {
    }
    forall b: BlockId | Owns(p', b) ensures Owns(p, b) && b != w.block {
      if r: int :| OwnsNumber(p'.index, r, b) { assert OwnsNumber(p.index, r, b) && r != q; }
    }
  }

  lemma WorkBorrows(p: Producer, s: Shared, t: ThreadId)
    requires SubQueue.Inv(p, s) && Distinct(p) && t in p.work
    ensures var (p', s') := StepWork(p, s, t, p.work[t]); Borrows(p, s, p', s') && Distinct(p')
  {
    hide SubQueue.Inv, Distinct, Borrows;
    if p.work[t].SetEmpty? {
      SetEmptyBorrows(p, s, t);
    } else if p.work[t].ClearEntry? {
      ClearEntryBorrows(p, s, t);
    } else if p.work[t].GiveBack? {
      GiveBackBorrows(p, s, t);
    } else {
      PlaceBorrows(p, s, StepWork(p, s, t, p.work[t]).0);
    }
  }

  lemma StepBorrows(p: Producer, s: Shared, a: Action)
    requires SubQueue.Inv(p, s) && Distinct(p) && OwnedApart(p, s)
    ensures var (p', s') := Step(p, s, a); Borrows(p, s, p', s') && Distinct(p')
  {
    hide SubQueue.Inv, Distinct, Borrows, OwnedApart, StepWork, StepEnqueue, C.Next;
    if a.AdvanceEnqueue? {
      EnqueueBorrows(p, s, a.supply, a.fails, a.garbage);
    } else if a.AdvanceDequeue? && a.t in p.work {
      WorkBorrows(p, s, a.t);
    } else if a.BeginEnqueue? {
      KeepsBlocks(p, s, Step(p, s, a).0, s);
    } else {
      PlaceBorrows(p, s, Step(p, s, a).0);
    }
  }

  // ---- other producers ----

  lemma FillingUntouched(p: Producer, s: Shared, s': Shared)
    requires SubQueue.Inv(p, s) && SameBlocks(p, s, s')
    ensures FillingOk(s', p.index, p.counters.tail, p.enqueue)
  {
    hide SubQueue.Inv, BlockAt, Offset, BlockOf;
    Q.Known(p, s, 0);
    hide IndexOk, EnqueueOk, ContentsOk, HistoryOk, ThreadOk;
    var pc := p.enqueue;
    if pc.PublishBlock? || pc.Construct? {
      assert pc.block in HeldBlocks(pc);
      assert Owns(p, pc.block);
    }
    forall j | 0 <= j < |Built(pc)|
      ensures Contains(s', BlockOf(p.index, p.counters.tail + j), p.counters.tail + j, Built(pc)[j])
    {
      BuildingInOwn(p, s, j);
    }
    if pc.Unbuild? {
      var tail := p.counters.tail;
      forall k: nat | tail <= k < tail + pc.built ensures Occupied(s', BlockOf(p.index, k), k) <==> tail + pc.i <= k {
        BuildingInOwn(p, s, k - tail);
        Q.SameOccupied(s, s', BlockOf(p.index, k), k);
      }
    }
  }

  /** A producer's invariant reads no block but its own. */
  lemma OtherKept(p: Producer, s: Shared, s': Shared)
    requires SubQueue.Inv(p, s) && SameBlocks(p, s, s')
    ensures SubQueue.Inv(p, s')
  {
    hide SubQueue.Inv, IndexOk, EnqueueOk, FillingOk, ContentsOk, HistoryOk, ThreadOk;
    FillingUntouched(p, s, s');
    assert Q.BlocksKept(p, s, s') by {
      forall q: int, b: BlockId | OwnsNumber(p.index, q, b) ensures Q.SameBlock(s, s', b, q, |p.values|) {
        assert Owns(p, b);
      }
    }
    Q.Known(p, s, 0);
    Q.ContentsKept(p, s, p, s');
    forall u ensures ThreadOk(p, u) { Q.Known(p, s, u); }
    Q.FromParts(p, s');
  }

  lemma BorrowsApart(p: Producer, s: Shared, p': Producer, s': Shared, r: Producer)
    requires Borrows(p, s, p', s') && Apart(p, r) && OwnedApart(r, s)
    ensures Apart(p', r) && SameBlocks(r, s, s') && OwnedApart(r, s')
  {
  }

  lemma BorrowsOwned(p: Producer, s: Shared, p': Producer, s': Shared)
    requires Borrows(p, s, p', s') && OwnedApart(p, s) && PoolOk(s)
    ensures OwnedApart(p', s') && PoolOk(s')
  {
  }

  lemma NextKeepsInv(y: System, e: Event)
    requires Inv(y) && Windowed(y)
    ensures Inv(Next(y, e))
  {
    hide SubQueue.Inv, Distinct, OwnedApart, Borrows, PoolOk, Apart, AllApart, NoneLost, Step, C.Windowed;
    var y' := Next(y, e);
    match e {
      case Create(i, garbage) =>
        if i !in y.producers {
          Q.NewProducerOk(garbage, y.shared);
          NewApart(y, NewProducer(garbage));
          hide NewProducer;
          ReplacedApart(y.producers, i, NewProducer(garbage));
          assert NoneLost(y'.shared, y'.producers) by { NewcomerLosesNone(y.shared, y.producers, i, NewProducer(garbage)); }
          forall j | j in y'.producers ensures ProducerOk(y', j) {
            if j != i { assert ProducerOk(y, j); }
          }
        }
      case Act(i, a) => if i in y.producers { ActKeepsInv(y, i, a); }
    }
  }

  lemma NewApart(y: System, p: Producer)
    requires Inv(y) && forall b: BlockId :: !Owns(p, b)
    ensures OwnedApart(p, y.shared) && forall j :: j in y.producers ==> Apart(p, y.producers[j]) && Apart(y.producers[j], p)
  {
  }

  lemma NewcomerLosesNone(s: Shared, producers: map<ProducerId, Producer>, i: ProducerId, p: Producer)
    requires NoneLost(s, producers) && i !in producers
    ensures NoneLost(s, producers[i := p])
  {
    hide Owns;
    var after := producers[i := p];
    forall b: BlockId | b < INITIAL_BLOCK_POOL_SIZE && b !in s.pool ensures exists j :: j in after && Owns(after[j], b) {
      var j :| j in producers && Owns(producers[j], b);
      assert Owns(after[j], b);
    }
  }

  lemma BorrowsLosesNone(s: Shared, producers: map<ProducerId, Producer>, i: ProducerId, p': Producer, s': Shared)
    requires NoneLost(s, producers) && i in producers && Borrows(producers[i], s, p', s')
    ensures NoneLost(s', producers[i := p'])
  {
    hide Owns, BlockAt;
    var after := producers[i := p'];
    forall b: BlockId | b < INITIAL_BLOCK_POOL_SIZE && b !in s'.pool ensures exists j :: j in after && Owns(after[j], b) {
      if b in s.pool {
        assert Owns(after[i], b);
      } else {
        var j :| j in producers && Owns(producers[j], b);
        assert Owns(after[j], b);
      }
    }
  }

  lemma ReplacedApart(producers: map<ProducerId, Producer>, i: ProducerId, p: Producer)
    requires AllApart(producers)
    requires forall j :: j in producers && j != i ==> Apart(p, producers[j])
    ensures AllApart(producers[i := p])
  {
    hide Apart;
    var after := producers[i := p];
    forall j, k | j in after && k in after && j != k ensures Apart(after[j], after[k]) {
      if k == i {
        assert Apart(p, producers[j]);
        ApartBothWays(p, producers[j]);
      }
    }
  }

  lemma OtherProducerOk(y: System, i: ProducerId, p': Producer, s': Shared, j: ProducerId)
    requires Inv(y) && i in y.producers && j in y.producers && j != i
    requires Borrows(y.producers[i], y.shared, p', s')
    ensures ProducerOk(System(s', y.producers[i := p']), j) && Apart(p', y.producers[j])
  {
    assert ProducerOk(y, j) && Apart(y.producers[i], y.producers[j]);
    hide SubQueue.Inv, Distinct, Inv, Borrows, Apart, SameBlocks, OwnedApart;
    BorrowsApart(y.producers[i], y.shared, p', s', y.producers[j]);
    OtherKept(y.producers[j], y.shared, s');
  }

  lemma ActKeepsInv(y: System, i: ProducerId, a: Action)
    requires Inv(y) && Windowed(y) && i in y.producers
    ensures Inv(Next(y, Act(i, a)))
  {
    hide SubQueue.Inv, Distinct, OwnedApart, Borrows, PoolOk, AllApart, NoneLost, Step, C.Windowed;
    var p, s, y' := y.producers[i], y.shared, Next(y, Act(i, a));
    var (p', s') := Step(p, s, a);
    assert ProducerOk(y, i);
    StepBorrows(p, s, a);
    Q.StepKeepsInv(p, s, a);
    BorrowsOwned(p, s, p', s');
    BorrowsLosesNone(s, y.producers, i, p', s');
    assert ProducerOk(y', i);
    hide ProducerOk;
    forall j | j in y'.producers && j != i ensures ProducerOk(y', j) {
      OtherProducerOk(y, i, p', s', j);
    }
    assert AllApart(y'.producers) by {
      forall j | j in y.producers && j != i ensures Apart(p', y.producers[j]) {
        OtherProducerOk(y, i, p', s', j);
      }
      ReplacedApart(y.producers, i, p');
    }
  }

  lemma ApartBothWays(p: Producer, r: Producer)
    requires Apart(p, r)
    ensures Apart(r, p)
  {
  }

  // ---- whole runs ----

  /** Any interleaving of any number of producers and consumers, whose indices stay within reach of the wrapping order. */
  ghost predicate Run(states: seq<System>, events: seq<Event>) {
    && |states| == |events| + 1 && states[0] == INIT
    && (forall k :: 0 <= k < |events| ==> Windowed(states[k]) && states[k + 1] == Next(states[k], events[k]))
  }

  lemma {:induction false} RunKeepsInv(states: seq<System>, events: seq<Event>, k: nat)
    requires Run(states, events) && k < |states|
    ensures Inv(states[k])
  {
    if k > 0 {
      RunKeepsInv(states, events, k - 1);
      NextKeepsInv(states[k - 1], events[k - 1]);
    }
  }

  lemma RunKnown(states: seq<System>, events: seq<Event>, k: nat, i: ProducerId)
    requires Run(states, events) && k < |states| && i in states[k].producers
    ensures ProducerOk(states[k], i)
  {
    RunKeepsInv(states, events, k);
  }

  // ---- what runs guarantee ----

  /** Both assertions of a consumer's index lookup hold, and it arrives at the block of the index it claimed. */
  lemma LookupAssertionsHold(states: seq<System>, events: seq<Event>, k: nat, i: ProducerId, t: ThreadId)
    requires Run(states, events) && k < |states| && i in states[k].producers
    requires var p := states[k].producers[i]; t in p.work && p.work[t].ReadKey?
    ensures var x, w := states[k].producers[i].index, states[k].producers[i].work[t];
      && w.header < |x.headers| && Ord(w.first) < |x.blockOf|
      && var header := x.headers[w.header];
      var tailBase := EntryAt(x, IndexAt(header, w.tail)).key;
      var slot := Ring(w.tail + (Base(Ord(w.first)) - tailBase) / BLOCK_SIZE, header.capacity);
      && tailBase != INVALID_BLOCK_BASE
      && EntryAt(x, IndexAt(header, slot)) == Entry(Base(Ord(w.first)), Some(x.blockOf[Ord(w.first)]))
  {
    hide SubQueue.Inv, Run, Distinct, OwnedApart;
    RunKnown(states, events, k, i);
    Q.LookupArrives(states[k].producers[i], states[k].shared, t);
  }

  /** In every later block of a bulk claim, too, the slot reached by stepping along the ring is the block's own. */
  lemma EveryBlockOfClaimFound(states: seq<System>, events: seq<Event>, k: nat, i: ProducerId, t: ThreadId)
    requires Run(states, events) && k < |states| && i in states[k].producers
    requires var p := states[k].producers[i]; t in p.work && p.work[t].ReadBlock?
    ensures var x, w := states[k].producers[i].index, states[k].producers[i].work[t];
      && w.header < |x.headers| && Ord(w.start) < |x.blockOf|
      && EntryAt(x, IndexAt(x.headers[w.header], w.slot)) == Entry(Base(Ord(w.start)), Some(x.blockOf[Ord(w.start)]))
  {
    hide SubQueue.Inv, Run, Distinct, OwnedApart, Ord, EntryAt, IndexAt;
    RunKnown(states, events, k, i);
    Q.SlotIsRight(states[k].producers[i], states[k].shared, t);
  }

  /** Moving out index j gives its claimant what was enqueued as number j, which nobody had moved out before. */
  lemma EachElementOnce(states: seq<System>, events: seq<Event>, k: nat, i: ProducerId, t: ThreadId)
    requires Run(states, events) && k < |states| && i in states[k].producers
    requires var p := states[k].producers[i]; t in p.work && p.work[t].Move?
    ensures var p := states[k].producers[i]; var w := p.work[t];
      var p' := StepWork(p, states[k].shared, t, w).0;
      && w.i < |p.values| && w.i < |p.counters.claims| && p.counters.claims[w.i] == t
      && w.i !in p.got && p'.got == p.got[w.i := p.values[w.i]]
  {
    hide SubQueue.Inv, Run, Distinct, OwnedApart, Ord;
    RunKnown(states, events, k, i);
    var p, s := states[k].producers[i], states[k].shared;
    Q.ElementAtHand(p, s, t);
    Q.ClaimKnown(p, s, t);
    hide Offset;
  }

  /** A finished dequeue has exactly the elements enqueued at the indices it claimed, in order, and they were its own. */
  lemma ClaimsDelivered(states: seq<System>, events: seq<Event>, k: nat, i: ProducerId, t: ThreadId, j: nat)
    requires Run(states, events) && k < |states| && i in states[k].producers
    requires var p := states[k].producers[i]; t in p.work && p.work[t].Done? && p.work[t].first <= j < End(p.work[t])
    ensures var p := states[k].producers[i];
      && j in p.got && j < |p.values| && p.got[j] == p.values[j]
      && j < |p.counters.claims| && p.counters.claims[j] == t
  {
    hide SubQueue.Inv, Run, Distinct, OwnedApart, PlaceOk;
    RunKnown(states, events, k, i);
    var p, s := states[k].producers[i], states[k].shared;
    Q.ClaimKnown(p, s, t);
    Q.Known(p, s, t);
    hide IndexOk, EnqueueOk, FillingOk, ContentsOk;
  }

  /** The assertion of set_many_empty: counts never exceed the block. */
  lemma CountStaysInBlock(states: seq<System>, events: seq<Event>, k: nat, i: ProducerId, t: ThreadId)
    requires Run(states, events) && k < |states| && i in states[k].producers
    requires var p := states[k].producers[i]; t in p.work && p.work[t].SetEmpty?
    ensures var p := states[k].producers[i]; var w := p.work[t];
      w.start < Stop(w)
      && BlockAt(states[k].shared, w.block).elementsCompletelyDequeued + (Stop(w) - w.start) <= BLOCK_SIZE
  {
    hide SubQueue.Inv, Run, Distinct, OwnedApart, Ord, Indices, Range;
    RunKnown(states, events, k, i);
    var p, s := states[k].producers[i], states[k].shared;
    Q.EmptyingKnown(p, s, t);
    Q.CountFinished(p.finished, Ord(p.work[t].start), p.work[t].start, Stop(p.work[t]));
  }

  /** No block is in use by two producers, or in use and in the pool. */
  lemma BlocksHaveOneHolder(states: seq<System>, events: seq<Event>, k: nat, i: ProducerId, j: ProducerId, b: BlockId)
    requires Run(states, events) && k < |states| && i in states[k].producers && j in states[k].producers && i != j
    requires Owns(states[k].producers[i], b)
    ensures !Owns(states[k].producers[j], b) && b !in states[k].shared.pool
  {
    RunKeepsInv(states, events, k);
    assert ProducerOk(states[k], i);
    hide SubQueue.Inv, Distinct, Owns;
    assert Apart(states[k].producers[i], states[k].producers[j]);
  }

  /**
   * The consumer that gives a block back has been alone in finding it empty: every element is moved out, the block was
   * in use and outside the pool until this step, and after it is neither.
   */
  lemma ReturnedWhenEmpty(states: seq<System>, events: seq<Event>, k: nat, i: ProducerId, t: ThreadId)
    requires Run(states, events) && k < |states| && i in states[k].producers
    requires var p := states[k].producers[i]; t in p.work && p.work[t].GiveBack?
    ensures var p, s := states[k].producers[i], states[k].shared; var w := p.work[t]; var q := Ord(w.start);
      var (p', s') := StepWork(p, s, t, w);
      && (forall j: nat :: Base(q) <= j < Base(q + 1) ==> j in p.got)
      && Owns(p, w.block) && w.block !in s.pool && !Owns(p', w.block)
      && (w.block < INITIAL_BLOCK_POOL_SIZE ==> s'.pool == s.pool + {w.block})
      && q < |p.index.phase| && p.index.phase[q] == Cleared(t) && q < |p'.index.phase| && p'.index.phase[q].Returned?
  {
    hide SubQueue.Inv, Run, Distinct, Ord, Owns, NumberOk, StartOk;
    RunKnown(states, events, k, i);
    var p, s := states[k].producers[i], states[k].shared;
    Q.RetiringKnown(p, s, t);
    GiveBackBorrows(p, s, t);
    Q.Known(p, s, t);
    hide IndexOk, EnqueueOk, FillingOk, ContentsOk, ThreadOk, Borrows, NextBlock;
    var q := Ord(p.work[t].start);
    forall j: nat | Base(q) <= j < Base(q + 1) ensures j in p.got {
      assert j in Range(q);
    }
  }

  /**
   * A block whose allocation is undone has been in use by this enqueuer alone, outside the pool, and goes back in the step
   * that ends its ownership.
   */
  lemma UndoneBlockReturned(states: seq<System>, events: seq<Event>, k: nat, i: ProducerId)
    requires Run(states, events) && k < |states| && i in states[k].producers
    requires states[k].producers[i].enqueue.UndoBlocks?
    ensures var p, s := states[k].producers[i], states[k].shared; var chain := p.enqueue.chain;
      var (p', s') := StepEnqueue(p, s, Exhausted, false, None);
      && chain != [] && Owns(p, chain[0]) && chain[0] !in s.pool && !Owns(p', chain[0])
      && (chain[0] < INITIAL_BLOCK_POOL_SIZE ==> s'.pool == s.pool + {chain[0]})
      && p'.enqueue == (if |chain| == 1 then Resting else UndoBlocks(chain[1..]))
  {
    hide SubQueue.Inv, Run, Distinct, Owns, Borrows;
    RunKnown(states, events, k, i);
    var p, s := states[k].producers[i], states[k].shared;
    Q.Known(p, s, 0);
    hide IndexOk, FillingOk, ContentsOk, HistoryOk, ThreadOk, C.Inv, UndoneAreClear, CountOk;
    UndoBlocksBorrows(p, s);
  }

  /** Both assertions of the enqueuer's own lookup hold whenever it undoes an entry, whatever the consumers have done. */
  lemma UndoLookupAssertionsHold(states: seq<System>, events: seq<Event>, k: nat, i: ProducerId)
    requires Run(states, events) && k < |states| && i in states[k].producers
    requires states[k].producers[i].enqueue.UndoEntry?
    ensures var x, pc := states[k].producers[i].index, states[k].producers[i].enqueue; var q := |x.blockOf| + pc.i;
      && pc.i < |pc.chain| && q == FirstFree(states[k].producers[i].counters.tail) + pc.i
      && EntryAt(x, LookedUp(x, q)) == Entry(Base(q), Some(pc.chain[pc.i]))
  {
    hide SubQueue.Inv, Run, Distinct, OwnedApart, LookedUp, EntryAt, FirstFree;
    RunKnown(states, events, k, i);
    var p, s := states[k].producers[i], states[k].shared;
    Q.UndoEntryFound(p, s);
    Q.Known(p, s, 0);
    Q.FirstFreeIs(p.counters.tail);
    hide IndexOk, FillingOk, ContentsOk, HistoryOk, ThreadOk, C.Inv, UndoneAreClear, ChainOk;
  }

  /** No block is lost: in every state of every run, each block of the initial pool is in the pool or has a holder. */
  lemma BlocksAccountedFor(states: seq<System>, events: seq<Event>, k: nat, b: BlockId)
    requires Run(states, events) && k < |states| && b < INITIAL_BLOCK_POOL_SIZE
    ensures b in states[k].shared.pool || exists i :: i in states[k].producers && Owns(states[k].producers[i], b)
  {
    RunKeepsInv(states, events, k);
    hide Owns, ProducerOk, Run, AllApart;
  }

  /**
   * After a constructor has thrown, the next element destroyed is one that was built and is still there; the last such
   * step leaves none of them.
   */
  lemma DestroysWhatItBuilt(states: seq<System>, events: seq<Event>, k: nat, i: ProducerId)
    requires Run(states, events) && k < |states| && i in states[k].producers
    requires var pc := states[k].producers[i].enqueue; pc.Unbuild? && pc.i < pc.built
    ensures var p, s := states[k].producers[i], states[k].shared; var x, tail, pc := p.index, p.counters.tail, p.enqueue;
      var s' := StepEnqueue(p, s, Exhausted, false, None).1;
      && Occupied(s, BlockOf(x, tail + pc.i), tail + pc.i)
      && (forall j: nat :: tail <= j < tail + pc.built ==> (Occupied(s', BlockOf(x, j), j) <==> tail + pc.i < j))
  {
    hide SubQueue.Inv, Run, Distinct, OwnedApart, Occupied, BlockOf, EraseElement, UnbuildFrom;
    RunKnown(states, events, k, i);
    Q.UnbuildFilling(states[k].producers[i], states[k].shared);
  }

  function Stage(phase: Phase): nat {
    match phase case Live => 0 case Closing(_) => 1 case Cleared(_) => 2 case Returned => 3
  }

  /** A block number keeps its block, and goes through its phases in order, each once, the last two by one consumer. */
  ghost predicate Advances(x: Index, x': Index, q: nat) {
    q < |x.phase| == |x.blockOf| ==>
      && q < |x'.phase| == |x'.blockOf| && x'.blockOf[q] == x.blockOf[q]
      && (x'.phase[q] == x.phase[q] || Stage(x'.phase[q]) == Stage(x.phase[q]) + 1)
      && (x.phase[q].Closing? && x'.phase[q].Cleared? ==> x'.phase[q].owner == x.phase[q].owner)
  }

  lemma UnwindLeaves(p: Producer)
    requires |p.index.phase| == |p.index.blockOf|
    ensures var p', x, x', n := Unwind(p), p.index, Unwind(p).index, FirstFree(p.counters.tail);
      || (x'.phase == x.phase && x'.blockOf == x.blockOf)
      || (n < |x.phase| && x'.phase == x.phase[..n] && x'.blockOf == x.blockOf[..n])
  {
    hide FirstFree;
  }

  /** Enqueue appends a live number, or withdraws those past the tail. */
  lemma EnqueueLeavesPhases(p: Producer, s: Shared, supply: Supply, fails: bool, garbage: Option<BlockId>)
    requires |p.index.phase| == |p.index.blockOf|
    ensures var x, x', n := p.index, StepEnqueue(p, s, supply, fails, garbage).0.index, FirstFree(p.counters.tail);
      || (x'.phase == x.phase && x'.blockOf == x.blockOf)
      || (p.enqueue.PublishBlock? && x'.phase == x.phase + [Live] && x'.blockOf == x.blockOf + [p.enqueue.block])
      || (!p.enqueue.StoreIndex? && n < |x.phase| && x'.phase == x.phase[..n] && x'.blockOf == x.blockOf[..n])
  {
    hide Ring, Offset, Base, Doubled, Grown, LookedUp, FirstFree, CircularLessThan, Wrap, Unwind, Release, BlockAt, BlockOf;
    var pc := p.enqueue;
    if pc.PublishBlock? || pc.Requisition? || pc.UndoBlocks? {
      hide Onward;
    } else if pc.Fill? || pc.Unbuild? || pc.LoadHead? || (pc.Grow? && fails) {
      UnwindLeaves(p);
    } else if pc.UndoValue? {
      UnwindLeaves(p.(index := SetValue(p.index, pc.entry, None)));
    } else {
      OtherEnqueueBorrows(p, s, supply, fails, garbage);
      hide StepEnqueue;
    }
  }

  lemma WorkMovesPhase(p: Producer, s: Shared, t: ThreadId, q: nat)
    requires SubQueue.Inv(p, s) && t in p.work
    ensures Advances(p.index, StepWork(p, s, t, p.work[t]).0.index, q)
  {
    hide SubQueue.Inv, NextBlock, Ord, Offset, Range, Indices, Ring, NumberOk, Base, StartOk;
    var w := p.work[t];
    if w.SetEmpty? {
      Q.EmptyingKnown(p, s, t);
    } else if w.ClearEntry? || w.GiveBack? {
      Q.RetiringKnown(p, s, t);
    } else {
      assert StepWork(p, s, t, w).0.index == p.index;
    }
  }

  /** Number q is in use for good: an element of it is enqueued, or all there is left to do is to store the tail. */
  ghost predicate Settled(p: Producer, q: nat) {
    q < |p.index.phase| == |p.index.blockOf| && (Base(q) < p.counters.tail || p.enqueue.StoreIndex?)
  }

  lemma StoredIsSettled(x: Index, tail: nat, pc: EnqueuePc, q: nat)
    requires EnqueueOk(x, tail, pc) && pc.StoreIndex? && q < |x.blockOf|
    ensures Base(q) < tail + |Elements(pc.job)|
  {
    hide Slot, Current, UndoneAreClear;
  }

  lemma EnqueueAdvances(p: Producer, s: Shared, supply: Supply, fails: bool, garbage: Option<BlockId>, q: nat)
    requires SubQueue.Inv(p, s) && Settled(p, q)
    ensures var p' := StepEnqueue(p, s, supply, fails, garbage).0; Settled(p', q) && Advances(p.index, p'.index, q)
  {
    hide SubQueue.Inv, StepEnqueue, FirstFree;
    Q.Known(p, s, 0);
    hide IndexOk, FillingOk, HistoryOk, ContentsOk, ThreadOk, EnqueueOk;
    Q.FirstFreeIs(p.counters.tail);
    EnqueueLeavesPhases(p, s, supply, fails, garbage);
    StoredOrNot(p, s, supply, fails, garbage);
    if p.enqueue.StoreIndex? { StoredIsSettled(p.index, p.counters.tail, p.enqueue, q); }
  }

  lemma PhasesAdvance(p: Producer, s: Shared, a: Action, q: nat)
    requires SubQueue.Inv(p, s) && Settled(p, q)
    ensures var p' := Step(p, s, a).0; Settled(p', q) && Advances(p.index, p'.index, q)
  {
    hide SubQueue.Inv, C.Next, StepEnqueue, StepWork;
    if a.AdvanceEnqueue? {
      EnqueueAdvances(p, s, a.supply, a.fails, a.garbage, q);
    } else if a.AdvanceDequeue? && a.t in p.work {
      WorkMovesPhase(p, s, a.t, q);
      WorkLeavesQueue(p, s, a.t);
    } else if !a.BeginEnqueue? {
      AtCounters(p, s, a);
    }
  }

  /**
   * The consumer that finishes a block's last element returns it: once all its indices are finished it is returned, or
   * still in the hands of one consumer, who is about to clear its entry or give it back.
   */
  lemma EmptiedIsReturned(states: seq<System>, events: seq<Event>, k: nat, i: ProducerId, q: nat)
    requires Run(states, events) && k < |states| && i in states[k].producers
    requires q < |states[k].producers[i].index.phase| && Range(q) <= states[k].producers[i].finished
    ensures var p := states[k].producers[i]; var phase := p.index.phase[q];
      || phase.Returned?
      || ((phase.Closing? || phase.Cleared?) && phase.owner in p.work && OwnedWork(p.work[phase.owner], phase, q))
    ensures var p := states[k].producers[i]; p.work == map[] ==> p.index.phase[q].Returned?
    ensures Settled(states[k].producers[i], q)
  {
    hide SubQueue.Inv, Run, Distinct, OwnedApart, Range, Ord;
    RunKnown(states, events, k, i);
    var p := states[k].producers[i];
    Q.Known(p, states[k].shared, 0);
    hide IndexOk, EnqueueOk, FillingOk, ThreadOk, C.Inv;
    assert NumberOk(p, states[k].shared, q);
    assert Base(q) in Range(q) by { Q.InRange(q, Base(q)); Q.OrdOf(Base(q), q); }
    assert Base(q) in p.got;
  }

  /** Returned is for good: a block number in use keeps its block, and is given back at most once. */
  lemma {:induction false} ReturnedOnce(
      states: seq<System>, events: seq<Event>, k: nat, m: nat, i: ProducerId, q: nat)
    requires Run(states, events) && k <= m < |states| && i in states[k].producers
    requires Settled(states[k].producers[i], q)
    ensures i in states[m].producers && Settled(states[m].producers[i], q)
    ensures var x, x' := states[k].producers[i].index, states[m].producers[i].index;
      x'.blockOf[q] == x.blockOf[q] && Stage(x.phase[q]) <= Stage(x'.phase[q])
    decreases m
  {
    hide SubQueue.Inv, Step;
    if k < m {
      ReturnedOnce(states, events, k, m - 1, i, q);
      RunKnown(states, events, m - 1, i);
      var e := events[m - 1];
      hide Settled;
      if e.Act? && e.i == i {
        PhasesAdvance(states[m - 1].producers[i], states[m - 1].shared, e.a, q);
      }
    }
  }

  // ---- the queue a sub-queue implements ----

  /**
   * Each atomic operation leaves a producer's queue alone, or appends the elements being enqueued, all at once, or hands
   * its oldest few elements to the one consumer that now claims them.
   */
  lemma StepRefinesQueue(p: Producer, s: Shared, a: Action)
    requires SubQueue.Inv(p, s) && Distinct(p) && C.Windowed(p.counters)
    ensures var p' := Step(p, s, a).0;
      && p.counters.head <= p.counters.tail == |p.values| && p'.counters.head <= p'.counters.tail == |p'.values|
      && (if a.AdvanceEnqueue? && p.enqueue.StoreIndex? then Contents(p') == Contents(p) + Elements(p.enqueue.job)
          else if a.AdvanceDequeue? && a.t !in p.work && a.t in p'.work then
            && p'.work[a.t].ReadHeader? && p'.work[a.t].first == p.counters.head
            && p'.work[a.t].n <= |Contents(p)| && Contents(p') == Contents(p)[p'.work[a.t].n..]
          else Contents(p') == Contents(p))
  {
    hide SubQueue.Inv, C.Windowed, Distinct, StepWork, StepEnqueue, C.Next;
    QueueBounds(p, s);
    Q.StepKeepsInv(p, s, a);
    QueueBounds(Step(p, s, a).0, Step(p, s, a).1);
    if a.AdvanceEnqueue? {
      StoredOrNot(p, s, a.supply, a.fails, a.garbage);
    } else if a.AdvanceDequeue? && a.t in p.work {
      WorkLeavesQueue(p, s, a.t);
    } else if !a.BeginEnqueue? {
      AtCounters(p, s, a);
    }
  }

  lemma QueueBounds(p: Producer, s: Shared)
    requires SubQueue.Inv(p, s)
    ensures p.counters.head <= p.counters.tail == |p.values|
  {
    hide SubQueue.Inv, C.Inv, IndexOk, EnqueueOk, FillingOk, ContentsOk, ThreadOk;
    Q.Known(p, s, 0);
    Q.HeadAtMostTail(p.counters);
  }

  lemma UnwindKeepsQueue(p: Producer)
    ensures Unwind(p) == p.(enqueue := Unwind(p).enqueue, index := Unwind(p).index)
  {
    hide FirstFree, Withdrawn;
  }

  lemma StoredOrNot(p: Producer, s: Shared, supply: Supply, fails: bool, garbage: Option<BlockId>)
    ensures var p' := StepEnqueue(p, s, supply, fails, garbage).0;
      && p'.counters.head == p.counters.head && p'.work == p.work
      && p'.values == (if p.enqueue.StoreIndex? then p.values + Elements(p.enqueue.job) else p.values)
      && p'.counters.tail == (if p.enqueue.StoreIndex? then p.counters.tail + |Elements(p.enqueue.job)| else p.counters.tail)
  {
    hide Ring, Ord, Offset, Base, Doubled, LookedUp, CircularLessThan, Wrap, Unwind, Onward, FillFrom;
    UnwindKeepsQueue(p);
    if p.enqueue.UndoValue? { UnwindKeepsQueue(p.(index := SetValue(p.index, p.enqueue.entry, None))); }
  }

  lemma WorkLeavesQueue(p: Producer, s: Shared, t: ThreadId)
    requires t in p.work
    ensures var p' := StepWork(p, s, t, p.work[t]).0;
      p'.values == p.values && p'.counters == p.counters && p'.enqueue == p.enqueue && p'.index.blockOf == p.index.blockOf
  {
    hide Ring, Ord, Offset, Base, NextBlock, Indices;
  }

  lemma AtCounters(p: Producer, s: Shared, a: Action)
    requires SubQueue.Inv(p, s) && (a.BeginDequeue? || a.EndDequeue? || (a.AdvanceDequeue? && a.t !in p.work))
    ensures var p' := Step(p, s, a).0;
      && p'.values == p.values && p'.counters.tail == p.counters.tail && p'.enqueue == p.enqueue && p'.index == p.index
      && (if a.AdvanceDequeue? && a.t in p'.work then
            p'.work[a.t].ReadHeader? && p'.work[a.t].first == p.counters.head
            && p'.counters.head == p.counters.head + p'.work[a.t].n
          else p'.counters.head == p.counters.head)
  {
    hide SubQueue.Inv, C.Next, C.Inv, PlaceOk, ProgressOk;
    Q.Known(p, s, a.t);
    hide IndexOk, EnqueueOk, FillingOk, ContentsOk, HistoryOk;
    if a.AdvanceDequeue? {
      Q.CountersStep(p.counters, a);
    } else {
      AsideKeepsHead(p, s, a);
    }
  }

  lemma AsideKeepsHead(p: Producer, s: Shared, a: Action)
    requires a.BeginDequeue? || a.EndDequeue?
    ensures var p' := Step(p, s, a).0;
      && p'.values == p.values && p'.counters.tail == p.counters.tail && p'.counters.head == p.counters.head
      && p'.enqueue == p.enqueue && p'.index == p.index
  {
  }

  /** A call carries the elements it began with until it stores tailIndex, undoes its work, or gives up. */
  lemma EnqueueCarriesElement(p: Producer, s: Shared, supply: Supply, fails: bool, garbage: Option<BlockId>, v: Job)
    requires Carries(p.enqueue, v)
    ensures var pc := StepEnqueue(p, s, supply, fails, garbage).0.enqueue;
      Carries(pc, v) || pc.Resting? || (!p.enqueue.StoreIndex? && (pc.UndoTail? || pc.Unbuild? || pc.UndoEntry?))
  {
    hide Ring, Ord, Offset, Base, Doubled, LookedUp, FirstFree, CircularLessThan, Wrap;
  }

  predicate Carries(pc: EnqueuePc, v: Job) {
    (Adding(pc) || pc.Fill? || pc.StoreIndex?) && pc.job == v
  }

  /** Producer i's enqueuer does not store tailIndex between states k and m. */
  ghost predicate StoresNothing(states: seq<System>, events: seq<Event>, k: nat, m: nat, i: ProducerId)
    requires Run(states, events) && k <= m < |states|
  {
    forall l :: k <= l < m && i in states[l].producers && states[l].producers[i].enqueue.StoreIndex? ==>
      !(events[l].Act? && events[l].i == i && events[l].a.AdvanceEnqueue?)
  }

  /** The blocks in use reach the tail; a resting enqueuer has no others. */
  lemma ReachKnown(p: Producer, s: Shared)
    requires SubQueue.Inv(p, s)
    ensures var n := FirstFree(p.counters.tail);
      n <= |p.index.blockOf| == |p.index.phase| && (p.enqueue.Resting? ==> n == |p.index.blockOf|)
  {
    hide SubQueue.Inv, FirstFree;
    Q.Known(p, s, 0);
    Q.FirstFreeIs(p.counters.tail);
    hide IndexOk, FillingOk, HistoryOk, ThreadOk, Slot, Current, UndoneAreClear, C.Inv, NumberOk, ElementOk;
  }

  /**
   * A failed enqueue or enqueue_bulk, whether for want of a block, of a larger index, or because an element's constructor
   * threw, leaves what is enqueued as it was; and once the enqueuer rests, its blocks are those it had before, in the same
   * order, and it holds none back.
   */
  lemma FailedEnqueueLeavesQueue(
      states: seq<System>, events: seq<Event>, k: nat, m: nat, i: ProducerId, b: BlockId)
    requires Run(states, events) && k <= m < |states| && i in states[k].producers
    requires StoresNothing(states, events, k, m, i)
    ensures i in states[m].producers && states[m].producers[i].values == states[k].producers[i].values
    ensures states[m].producers[i].counters.tail == states[k].producers[i].counters.tail
    ensures states[m].producers[i].enqueue.Resting? && Owns(states[m].producers[i], b) ==>
              exists q: int :: OwnsNumber(states[m].producers[i].index, q, b)
    ensures states[k].producers[i].enqueue.Resting? && states[m].producers[i].enqueue.Resting? ==>
              states[m].producers[i].index.blockOf == states[k].producers[i].index.blockOf
  {
    StoringNothingKeeps(states, events, k, m, i);
    RunKnown(states, events, k, i);
    RunKnown(states, events, m, i);
    hide SubQueue.Inv, Distinct, OwnedApart, Run, FirstFree, StoresNothing, OwnsNumber;
    ReachKnown(states[k].producers[i], states[k].shared);
    ReachKnown(states[m].producers[i], states[m].shared);
    var p, p' := states[k].producers[i], states[m].producers[i];
    assert p.enqueue.Resting? && p'.enqueue.Resting? ==> p'.index.blockOf == p.index.blockOf by {
      assert p.index.blockOf[..|p.index.blockOf|] == p.index.blockOf && p'.index.blockOf[..|p'.index.blockOf|] == p'.index.blockOf;
    }
    if p'.enqueue.Resting? && Owns(p', b) { RestingHoldsNone(p', b); }
    hide Owns, SameQueue;
  }

  lemma RestingHoldsNone(p: Producer, b: BlockId)
    requires p.enqueue.Resting? && Owns(p, b)
    ensures exists q: int :: OwnsNumber(p.index, q, b)
  {
  }

  /** The same elements, and the same blocks as far as they reach. */
  ghost predicate SameQueue(p: Producer, p': Producer) {
    var n := FirstFree(p.counters.tail);
    && p'.values == p.values && p'.counters.tail == p.counters.tail
    && n <= |p.index.blockOf| && n <= |p'.index.blockOf| && p'.index.blockOf[..n] == p.index.blockOf[..n]
  }

  lemma StepSameQueue(p: Producer, s: Shared, a: Action)
    requires SubQueue.Inv(p, s) && !(a.AdvanceEnqueue? && p.enqueue.StoreIndex?)
    ensures SameQueue(p, Step(p, s, a).0)
  {
    hide SubQueue.Inv, StepEnqueue, StepWork, C.Next, FirstFree;
    ReachKnown(p, s);
    if a.AdvanceEnqueue? {
      StoredOrNot(p, s, a.supply, a.fails, a.garbage);
      EnqueueLeavesPhases(p, s, a.supply, a.fails, a.garbage);
    } else if a.AdvanceDequeue? && a.t in p.work {
      WorkLeavesQueue(p, s, a.t);
    } else if !a.BeginEnqueue? {
      AtCounters(p, s, a);
    }
  }

  lemma {:induction false} StoringNothingKeeps(states: seq<System>, events: seq<Event>, k: nat, m: nat, i: ProducerId)
    requires Run(states, events) && k <= m < |states| && i in states[k].producers
    requires StoresNothing(states, events, k, m, i)
    ensures i in states[m].producers && SameQueue(states[k].producers[i], states[m].producers[i])
    decreases m
  {
    hide SubQueue.Inv, Step, FirstFree;
    if k == m {
      RunKnown(states, events, k, i);
      ReachKnown(states[k].producers[i], states[k].shared);
    } else {
      StoringNothingKeeps(states, events, k, m - 1, i);
      RunKnown(states, events, m - 1, i);
      hide Distinct, OwnedApart, Windowed;
      var e := events[m - 1];
      if e.Act? && e.i == i {
        assert !(e.a.AdvanceEnqueue? && states[m - 1].producers[i].enqueue.StoreIndex?);
        StepSameQueue(states[m - 1].producers[i], states[m - 1].shared, e.a);
      }
      hide StoresNothing;
    }
  }
}

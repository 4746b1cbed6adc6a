/**
 * What calls on the queue are sure of: an enqueue that nothing fails stores its elements, and every enqueue and dequeue is
 * over after a bounded number of its own steps, whatever other threads do in between (concurrentqueue.h:2487-2879).
 */
module WaitFree {
  import opened Options
  import opened CircularIndex
  import opened BlockIndex
  import opened BlockIndexSafety
  import opened SubQueue
  import opened BlockPool
  import Q = SubQueueSafety
  import C = DequeueCounters

  // ---- an enqueue that nothing fails ----

  /**
   * Nothing fails in a step of enqueue: no allocation, no constructor; a block asked for is there or created; and a new block
   * leaves the sub-queue shorter than half the range of indices.
   */
  ghost predicate Unfailed(p: Producer, s: Shared, supply: Supply, fails: bool) {
    && !fails
    && (p.enqueue.Requisition? ==> supply.Created? || (supply.FromPool? && supply.block in s.pool))
    && (p.enqueue.LoadHead? ==> Base(|p.index.blockOf|) + BLOCK_SIZE - p.counters.head < HALF_RANGE)
  }

  lemma NotFull(p: Producer, s: Shared)
    requires SubQueue.Inv(p, s) && Base(|p.index.blockOf|) + BLOCK_SIZE - p.counters.head < HALF_RANGE
    ensures CircularLessThan(Wrap(p.counters.head), Wrap(Base(|p.index.blockOf|) + BLOCK_SIZE))
  {
    hide SubQueue.Inv, CircularLessThan, Wrap, C.Inv;
    Q.Known(p, s, 0);
    hide IndexOk, FillingOk, HistoryOk, ContentsOk, ThreadOk, Current, UndoneAreClear;
    Q.HeadAtMostTail(p.counters);
    CircularLessThanIsLess(p.counters.head, Base(|p.index.blockOf|) + BLOCK_SIZE);
  }

  lemma FillInRange(p: Producer, s: Shared)
    requires SubQueue.Inv(p, s) && p.enqueue.Fill?
    ensures p.enqueue.i < |Elements(p.enqueue.job)|
  {
    hide SubQueue.Inv, C.Inv;
    Q.Known(p, s, 0);
    hide IndexOk, FillingOk, HistoryOk, ContentsOk, ThreadOk, CountOk, UndoneAreClear, Current;
  }

  /** Such a step stores the elements if that is what is left to do, and otherwise goes on with the same job. */
  lemma UnfailedGoesOn(p: Producer, s: Shared, supply: Supply, fails: bool, garbage: Option<BlockId>, job: Job)
    requires SubQueue.Inv(p, s) && Carries(p.enqueue, job) && Unfailed(p, s, supply, fails)
    ensures var p' := StepEnqueue(p, s, supply, fails, garbage).0;
      if p.enqueue.StoreIndex? then
        p'.enqueue.Resting? && p'.values == p.values + Elements(job) && p'.counters.tail == p.counters.tail + |Elements(job)|
      else Carries(p'.enqueue, job) && p'.values == p.values && p'.counters.tail == p.counters.tail
  {
    hide SubQueue.Inv, CircularLessThan, Wrap, Ring, Ord, Offset, Base, Doubled, Unwind, UnbuildFrom, LookedUp, WriteElement, Publish;
    if p.enqueue.LoadHead? { NotFull(p, s); }
    if p.enqueue.Fill? { FillInRange(p, s); }
    StoredOrNot(p, s, supply, fails, garbage);
  }

  /** Producer i's enqueuer begins job in state k, is at it until state m, and nothing fails it on the way. */
  ghost predicate CallUnfailed(states: seq<System>, events: seq<Event>, k: nat, m: nat, i: ProducerId, job: Job) {
    && Run(states, events) && k < m < |states| && i in states[k].producers && states[k].producers[i].enqueue.Resting?
    && events[k] == Act(i, BeginEnqueue(job))
    && forall l :: k < l < m && i in states[l].producers ==>
         && !states[l].producers[i].enqueue.Resting?
         && (events[l].Act? && events[l].i == i && events[l].a.AdvanceEnqueue? ==>
               Unfailed(states[l].producers[i], states[l].shared, events[l].a.supply, events[l].a.fails))
  }

  /**
   * An enqueue or enqueue_bulk ends without storing only if something failed it: when nothing has, its elements have been
   * appended, all and in order, once the enqueuer rests again; until then nothing has, and it is still at them.
   */
  lemma {:induction false} UnfailedEnqueueStores(
      states: seq<System>, events: seq<Event>, k: nat, m: nat, i: ProducerId, job: Job)
    requires CallUnfailed(states, events, k, m, i, job)
    ensures i in states[m].producers
    ensures var p, p' := states[k].producers[i], states[m].producers[i];
      if p'.enqueue.Resting? then
        p'.values == p.values + Elements(job) && p'.counters.tail == p.counters.tail + |Elements(job)|
      else Carries(p'.enqueue, job) && p'.values == p.values && p'.counters.tail == p.counters.tail
    decreases m
  {
    hide SubQueue.Inv, StepEnqueue, StepWork, C.Next, NeedsBlock, Unfailed, Distinct, OwnedApart, Windowed, Carries;
    if m == k + 1 {
      BeginCarries(states[k].producers[i], states[k].shared, job);
    } else {
      UnfailedEnqueueStores(states, events, k, m - 1, i, job);
      RunKnown(states, events, m - 1, i);
      var p, s, e := states[m - 1].producers[i], states[m - 1].shared, events[m - 1];
      if e.Act? && e.i == i {
        if e.a.AdvanceEnqueue? {
          UnfailedGoesOn(p, s, e.a.supply, e.a.fails, e.a.garbage, job);
          CarriesNotResting(job);
        } else {
          OthersKeepQueue(p, s, e.a);
        }
      }
    }
  }

  lemma CarriesNotResting(job: Job)
    ensures forall pc :: Carries(pc, job) ==> !pc.Resting?
  {
  }

  lemma BeginCarries(p: Producer, s: Shared, job: Job)
    requires p.enqueue.Resting?
    ensures var p' := Step(p, s, BeginEnqueue(job)).0;
      Carries(p'.enqueue, job) && p'.values == p.values && p'.counters == p.counters && !p'.enqueue.Resting?
  {
    hide NeedsBlock;
  }

  lemma OthersKeepQueue(p: Producer, s: Shared, a: Action)
    requires SubQueue.Inv(p, s) && !a.AdvanceEnqueue? && !p.enqueue.Resting?
    ensures var p' := Step(p, s, a).0;
      p'.values == p.values && p'.counters.tail == p.counters.tail && p'.enqueue == p.enqueue
  {
    hide SubQueue.Inv, StepWork, C.Next;
    if a.AdvanceDequeue? && a.t in p.work {
      WorkLeavesQueue(p, s, a.t);
    } else if !a.BeginEnqueue? {
      AtCounters(p, s, a);
    }
  }

  // ---- how many steps an enqueue has left ----

  /** The entry that the ring offers next can be taken. */
  predicate Free(x: Index, e: EntryId) { EntryAt(x, e).key == INVALID_BLOCK_BASE || EntryAt(x, e).value.None? }

  function Offered(x: Index): EntryId {
    var h := Current(x);
    IndexAt(h, Ring(h.tail + 1, h.capacity))
  }

  /** How far adding one block has come; a ring that has to grow is gone through once more. */
  function AddingLeft(x: Index, pc: EnqueuePc): nat {
    match pc
    case LoadHead(_) => 12
    case LoadKey(_) => if Free(x, Offered(x)) then 8 else 11
    case LoadValue(_, e, _) => if Free(x, e) then 7 else 10
    case Grow(_) => 9
    case StoreKey(_, _, _) => 6
    case StoreTail(_, _, _) => 5
    case Requisition(_, _) => 4
    case Reset(_, _, _) => 3
    case Construct(_, _, _) => 2
    case _ => 1
  }

  /** Indices the job needs beyond the blocks in use. */
  function Lacking(p: Producer, job: Job): nat {
    var reach, end := Base(|p.index.blockOf|), p.counters.tail + |Elements(job)|;
    if reach < end then end - reach else 0
  }

  /** At most so many steps of its own until the enqueuer rests, failures and their undoing included. */
  function StepsLeft(p: Producer): nat {
    var pc, blocks := p.enqueue, |p.index.blockOf|;
    if pc.Resting? then 0
    else if Adding(pc) then
      13 * Lacking(p, pc.job) + AddingLeft(p.index, pc) + 2 * |Elements(pc.job)| + 3 * (blocks + Lacking(p, pc.job)) + 4
    else if pc.Fill? then 2 * |Elements(pc.job)| - Min(pc.i, |Elements(pc.job)|) + 3 * blocks + 3
    else if pc.StoreIndex? then 1
    else if pc.Unbuild? then (if pc.i < pc.built then pc.built - pc.i else 0) + 3 * blocks + 1
    else if pc.UndoTail? then 3 * blocks + 3
    else if pc.UndoValue? then 3 * blocks + 2
    else if pc.UndoEntry? then (if pc.i < |pc.chain| then 2 * (|pc.chain| - pc.i) else 0) + |pc.chain|
    else if pc.UndoIndex? then (if pc.i < |pc.chain| then 2 * (|pc.chain| - pc.i) - 1 else 0) + |pc.chain|
    else |pc.chain|
  }

  function Min(a: nat, b: nat): nat { if a < b then a else b }

  lemma UnwindLeft(p: Producer)
    ensures StepsLeft(Unwind(p)) <= 3 * |p.index.blockOf|
  {
    hide FirstFree, AddingLeft, Lacking, Base;
  }

  /** Adding a block: growth makes the next entry one that can be taken, so it happens at most once for each block. */
  lemma LoadHeadGetsOn(p: Producer, s: Shared)
    requires p.enqueue.LoadHead?
    ensures StepsLeft(StepEnqueue(p, s, Exhausted, false, None).0) < StepsLeft(p)
  {
    hide CircularLessThan, Wrap, Unwind, Free, Current, Ring, Base;
    UnwindLeft(p);
  }

  lemma EntryGetsOn(p: Producer, s: Shared)
    requires SubQueue.Inv(p, s) && (p.enqueue.LoadKey? || p.enqueue.LoadValue?)
    ensures StepsLeft(StepEnqueue(p, s, Exhausted, false, None).0) < StepsLeft(p)
  {
    hide SubQueue.Inv, CircularLessThan, Wrap, Ord, Offset, Base, Doubled, Unwind, LookedUp, WriteElement, Publish, Ring;
    Q.Known(p, s, 0);
    hide IndexOk, FillingOk, HistoryOk, ContentsOk, ThreadOk, CountOk, UndoneAreClear, C.Inv, Slot, ChainOk;
  }

  lemma BlockGetsOn(p: Producer, s: Shared, supply: Supply, fails: bool)
    requires p.enqueue.StoreKey? || p.enqueue.StoreTail? || p.enqueue.Requisition? || p.enqueue.Reset? || p.enqueue.Construct?
    ensures StepsLeft(StepEnqueue(p, s, supply, fails, None).0) < StepsLeft(p)
  {
    hide Ord, Offset, Base, Doubled, LookedUp, WriteElement, Publish, Ring, Free, SetCount, Unwind, Onward;
  }

  lemma GrowGetsOn(p: Producer, s: Shared, fails: bool, garbage: Option<BlockId>)
    requires SubQueue.Inv(p, s) && p.enqueue.Grow?
    ensures StepsLeft(StepEnqueue(p, s, Exhausted, fails, garbage).0) < StepsLeft(p)
  {
    hide SubQueue.Inv, Unwind, Doubled;
    UnwindLeft(p);
    Q.Known(p, s, 0);
    Q.GrownOk(p.index, p.counters.tail, p.enqueue, garbage);
    GrowthLeavesRoom(p.index, garbage);
    hide IndexOk, FillingOk, HistoryOk, ContentsOk, ThreadOk, EnqueueOk, C.Inv, WindowsKept, InWindow, Full, Ring;
  }

  lemma PublishGetsOn(p: Producer, s: Shared)
    requires SubQueue.Inv(p, s) && p.enqueue.PublishBlock?
    ensures StepsLeft(StepEnqueue(p, s, Exhausted, false, None).0) < StepsLeft(p)
  {
    hide SubQueue.Inv, SetValue, Free;
    Q.Known(p, s, 0);
    hide IndexOk, FillingOk, HistoryOk, ContentsOk, ThreadOk, UndoneAreClear, C.Inv, Slot, ChainOk, Current;
  }

  lemma FillGetsOn(p: Producer, s: Shared, fails: bool)
    requires SubQueue.Inv(p, s) && (p.enqueue.Fill? || p.enqueue.StoreIndex? || p.enqueue.Unbuild?)
    ensures StepsLeft(StepEnqueue(p, s, Exhausted, fails, None).0) < StepsLeft(p)
  {
    hide SubQueue.Inv, Unwind, WriteElement, EraseElement, BlockOf, C.Next;
    UnwindLeft(p);
    Q.Known(p, s, 0);
    hide IndexOk, FillingOk, HistoryOk, ContentsOk, ThreadOk, UndoneAreClear, C.Inv, CountOk, Slot, Current;
  }

  lemma UndoneGetsOn(p: Producer, s: Shared)
    requires p.enqueue.UndoTail? || p.enqueue.UndoValue?
    ensures StepsLeft(StepEnqueue(p, s, Exhausted, false, None).0) < StepsLeft(p)
  {
    hide Unwind, Ring, Lacking, AddingLeft;
    if p.enqueue.UndoValue? { UnwindLeft(p.(index := SetValue(p.index, p.enqueue.entry, None))); }
  }

  lemma PcKnown(p: Producer, s: Shared)
    requires SubQueue.Inv(p, s)
    ensures PcOk(p.enqueue)
  {
    hide SubQueue.Inv, PcOk;
    Q.Known(p, s, 0);
    hide IndexOk, FillingOk, HistoryOk, ContentsOk, ThreadOk, UndoneAreClear, C.Inv, CountOk, ChainOk;
  }

  lemma ChainGetsOn(p: Producer, s: Shared)
    requires PcOk(p.enqueue) && (p.enqueue.UndoEntry? || p.enqueue.UndoIndex? || p.enqueue.UndoBlocks?)
    ensures StepsLeft(StepEnqueue(p, s, Exhausted, false, None).0) < StepsLeft(p)
  {
    hide Unwind, LookedUp, Ring, Lacking, AddingLeft, Release, MoveTail, SetValue;
  }

  /** Every step of an enqueue leaves it fewer steps to go. */
  lemma EnqueueGetsOn(p: Producer, s: Shared, supply: Supply, fails: bool, garbage: Option<BlockId>)
    requires SubQueue.Inv(p, s) && !p.enqueue.Resting?
    ensures StepsLeft(StepEnqueue(p, s, supply, fails, garbage).0) < StepsLeft(p)
  {
    hide SubQueue.Inv, StepsLeft, Unwind, UnbuildFrom, Onward, Publish, LookedUp, MoveTail, Grown, C.Next, PcOk;
    if p.enqueue.Grow? {
      GrowGetsOn(p, s, fails, garbage);
    } else if p.enqueue.PublishBlock? {
      PublishGetsOn(p, s);
    } else if p.enqueue.LoadHead? {
      LoadHeadGetsOn(p, s);
    } else if p.enqueue.LoadKey? || p.enqueue.LoadValue? {
      EntryGetsOn(p, s);
    } else if Adding(p.enqueue) {
      BlockGetsOn(p, s, supply, fails);
    } else if p.enqueue.Fill? || p.enqueue.StoreIndex? || p.enqueue.Unbuild? {
      FillGetsOn(p, s, fails);
    } else if p.enqueue.UndoTail? || p.enqueue.UndoValue? {
      UndoneGetsOn(p, s);
    } else {
      PcKnown(p, s);
      ChainGetsOn(p, s);
    }
  }

  /** Consumers can only help: the entries they clear can be taken. */
  lemma ConsumersHelp(p: Producer, s: Shared, a: Action)
    requires SubQueue.Inv(p, s) && !a.AdvanceEnqueue? && !p.enqueue.Resting?
    ensures StepsLeft(Step(p, s, a).0) <= StepsLeft(p)
  {
    hide SubQueue.Inv, StepWork, C.Next, StepsLeft;
    OthersKeepQueue(p, s, a);
    if a.AdvanceDequeue? && a.t in p.work {
      WorkLeavesQueue(p, s, a.t);
      WorkOnlyClears(p, s, a.t);
      ClearingHelps(p, StepWork(p, s, a.t, p.work[a.t]).0);
    } else {
      if !a.BeginEnqueue? { AtCounters(p, s, a); }
      ClearingHelps(p, Step(p, s, a).0);
    }
  }

  lemma WorkOnlyClears(p: Producer, s: Shared, t: C.ThreadId)
    requires t in p.work
    ensures var x, x' := p.index, StepWork(p, s, t, p.work[t]).0.index;
      && x'.headers == x.headers && forall e :: Free(x, e) ==> Free(x', e)
  {
    hide Ring, Ord, Offset, Base, NextBlock, Indices, BlockAt;
  }

  lemma ClearingHelps(p: Producer, p': Producer)
    requires p'.enqueue == p.enqueue && p'.counters.tail == p.counters.tail && p'.index.blockOf == p.index.blockOf
    requires p'.index.headers == p.index.headers && forall e :: Free(p.index, e) ==> Free(p'.index, e)
    ensures StepsLeft(p') <= StepsLeft(p)
  {
    hide Free, Ring;
    assert Offered(p'.index) == Offered(p.index);
  }

  /** The steps producer i's enqueuer takes from state k to state m. */
  function EnqueueSteps(events: seq<Event>, i: ProducerId, k: nat, m: nat): nat
    requires k <= m <= |events|
  {
    if k == m then 0
    else
      var e := events[m - 1];
      EnqueueSteps(events, i, k, m - 1) + if e.Act? && e.i == i && e.a.AdvanceEnqueue? then 1 else 0
  }

  /**
   * Enqueue is wait-free: while it is at a call, an enqueuer takes no more steps than it had left when it was first looked
   * at, whatever is interleaved; a failed call is undone within that bound, too.
   */
  lemma {:induction false} EnqueueIsWaitFree(states: seq<System>, events: seq<Event>, k: nat, m: nat, i: ProducerId)
    requires Run(states, events) && k <= m < |states| && i in states[k].producers
    requires forall l :: k <= l < m && i in states[l].producers ==> !states[l].producers[i].enqueue.Resting?
    ensures i in states[m].producers
    ensures EnqueueSteps(events, i, k, m) + StepsLeft(states[m].producers[i]) <= StepsLeft(states[k].producers[i])
    decreases m
  {
    hide SubQueue.Inv, Step, StepsLeft, Distinct, OwnedApart, Windowed;
    if k < m {
      EnqueueIsWaitFree(states, events, k, m - 1, i);
      RunKnown(states, events, m - 1, i);
      var p, s, e := states[m - 1].producers[i], states[m - 1].shared, events[m - 1];
      if e.Act? && e.i == i { StepGetsOn(p, s, e.a); }
    }
  }

  lemma StepGetsOn(p: Producer, s: Shared, a: Action)
    requires SubQueue.Inv(p, s) && !p.enqueue.Resting?
    ensures StepsLeft(Step(p, s, a).0) + (if a.AdvanceEnqueue? then 1 else 0) <= StepsLeft(p)
  {
    hide SubQueue.Inv, StepsLeft, StepEnqueue;
    if a.AdvanceEnqueue? {
      EnqueueGetsOn(p, s, a.supply, a.fails, a.garbage);
    } else {
      ConsumersHelp(p, s, a);
    }
  }

  // ---- how many steps a dequeue has left ----

  /** At most so many steps until the claim is delivered, counting each move, count, clearing, and return of a block. */
  function WorkLeft(w: Work): nat {
    var after := if HasStart(w) && Stop(w) < End(w) then End(w) - Stop(w) else 0;
    match w
    case ReadHeader(_, n) => 5 * n + 3
    case ReadTail(_, n, _) => 5 * n + 2
    case ReadKey(_, n, _, _, _) => 5 * n + 1
    case ReadBlock(_, _, start, _, _) => if start < End(w) then 5 * (End(w) - start) else 0
    case Move(_, _, _, i, _, _, _) => (if i < Stop(w) then Stop(w) - i else 0) + 3 + 5 * after
    case SetEmpty(_, _, _, _, _, _) => 3 + 5 * after
    case ClearEntry(_, _, _, _, _, _) => 2 + 5 * after
    case GiveBack(_, _, _, _, _, _) => 1 + 5 * after
    case Done(_, _) => 0
  }

  lemma NextBlockLeft(x: Index, w: Work)
    requires HasStart(w) && Stop(w) <= End(w)
    ensures WorkLeft(NextBlock(x, w)) == 5 * (End(w) - Stop(w))
    ensures NextBlock(x, w).first == w.first && NextBlock(x, w).n == w.n
  {
    hide Ring, HeaderAt, Base, Ord;
  }

  /** Every step of a consumer with a claim leaves it fewer steps to go; none of them waits for anybody. */
  lemma WorkGetsOn(p: Producer, s: Shared, t: C.ThreadId)
    requires SubQueue.Inv(p, s) && t in p.work && !p.work[t].Done?
    ensures var p' := StepWork(p, s, t, p.work[t]).0;
      t in p'.work && WorkLeft(p'.work[t]) < WorkLeft(p.work[t])
      && p'.work[t].first == p.work[t].first && p'.work[t].n == p.work[t].n
  {
    hide SubQueue.Inv, WorkLeft;
    var w := p.work[t];
    if w.ReadHeader? || w.ReadTail? || w.ReadKey? {
      LookupGetsOn(p, s, t);
    } else if w.ReadBlock? {
      ReadBlockGetsOn(p, s, t);
    } else if w.Move? {
      MoveGetsOn(p, s, t);
    } else {
      RetiringGetsOn(p, s, t);
    }
  }

  lemma LookupGetsOn(p: Producer, s: Shared, t: C.ThreadId)
    requires SubQueue.Inv(p, s) && t in p.work && (p.work[t].ReadHeader? || p.work[t].ReadTail? || p.work[t].ReadKey?)
    ensures var p' := StepWork(p, s, t, p.work[t]).0;
      t in p'.work && WorkLeft(p'.work[t]) < WorkLeft(p.work[t])
      && p'.work[t].first == p.work[t].first && p'.work[t].n == p.work[t].n
  {
    hide SubQueue.Inv, Ring, Ord, HeaderAt, IndexAt, EntryAt, Base;
  }

  lemma ReadBlockGetsOn(p: Producer, s: Shared, t: C.ThreadId)
    requires SubQueue.Inv(p, s) && t in p.work && p.work[t].ReadBlock?
    ensures var p' := StepWork(p, s, t, p.work[t]).0;
      t in p'.work && WorkLeft(p'.work[t]) < WorkLeft(p.work[t])
      && p'.work[t].first == p.work[t].first && p'.work[t].n == p.work[t].n
  {
    hide SubQueue.Inv, IndexAt, EntryAt, Covers, Slot;
    Q.SlotIsRight(p, s, t);
    Q.ClaimKnown(p, s, t);
    Q.OrdIs(p.work[t].start);
    hide ProgressOk, Ord;
  }

  lemma MoveGetsOn(p: Producer, s: Shared, t: C.ThreadId)
    requires SubQueue.Inv(p, s) && t in p.work && p.work[t].Move?
    ensures var p' := StepWork(p, s, t, p.work[t]).0;
      t in p'.work && WorkLeft(p'.work[t]) < WorkLeft(p.work[t])
      && p'.work[t].first == p.work[t].first && p'.work[t].n == p.work[t].n
  {
    hide SubQueue.Inv, Ord, BlockAt;
    Q.ElementAtHand(p, s, t);
  }

  lemma RetiringGetsOn(p: Producer, s: Shared, t: C.ThreadId)
    requires SubQueue.Inv(p, s) && t in p.work && (p.work[t].SetEmpty? || p.work[t].ClearEntry? || p.work[t].GiveBack?)
    ensures var p' := StepWork(p, s, t, p.work[t]).0;
      t in p'.work && WorkLeft(p'.work[t]) < WorkLeft(p.work[t])
      && p'.work[t].first == p.work[t].first && p'.work[t].n == p.work[t].n
  {
    hide SubQueue.Inv, Ord, BlockAt, NextBlock, Indices, Base;
    var w := p.work[t];
    NextBlockLeft(p.index, w);
    hide HeaderAt, IndexAt;
  }

  /** What a thread has left to do at the counters before it holds a claim or none, and the most it can come to hold. */
  function TicketLeft(pc: C.Pc): nat {
    match pc
    case Start(max) => 7 + 5 * max
    case LoadedTail(max, _) => 6 + 5 * max
    case LoadedOver(max, _, _) => 5 + 5 * max
    case Attempt(_, desired) => 4 + 5 * desired
    case Ticketed(_, desired, _) => 3 + 5 * desired
    case Partial(actual, _, _) => 2 + 5 * actual
    case Passing(actual, _) => 1 + 5 * actual
    case Failing(desired, _) => 1 + 5 * desired
    case _ => 0
  }

  predicate Undecided(pc: C.Pc) { !pc.Idle? && !pc.Holding? }

  /** The thread is in a dequeue that has neither delivered its claim nor found nothing to claim. */
  predicate Dequeuing(p: Producer, t: C.ThreadId) {
    if t in p.work then !p.work[t].Done? else Undecided(C.PcOf(p.counters, t))
  }

  /** At most so many steps of its own until the thread's dequeue is over. */
  function DequeueLeft(p: Producer, t: C.ThreadId): nat {
    if t in p.work then WorkLeft(p.work[t])
    else if Undecided(C.PcOf(p.counters, t)) then TicketLeft(C.PcOf(p.counters, t)) + 3
    else 0
  }

  /** Every step at the counters leaves fewer; the last one leaves what the claim is worth. */
  lemma CountersGetOn(c: C.State, t: C.ThreadId)
    requires C.PcOk(c, t) && Undecided(C.PcOf(c, t))
    ensures var pc := C.PcOf(C.StepThread(c, t), t);
      if pc.Holding? then 5 * pc.count < TicketLeft(C.PcOf(c, t)) else TicketLeft(pc) < TicketLeft(C.PcOf(c, t))
  {
    hide C.Mark, Available;
  }

  lemma OthersAtCounters(c: C.State, t: C.ThreadId, u: C.ThreadId)
    requires t != u
    ensures C.PcOf(C.StepThread(c, t), u) == C.PcOf(c, u)
  {
    hide C.Mark, Available;
  }

  lemma ClaimingGetsOn(p: Producer, s: Shared, t: C.ThreadId)
    requires SubQueue.Inv(p, s) && t !in p.work && Undecided(C.PcOf(p.counters, t))
    ensures DequeueLeft(Step(p, s, AdvanceDequeue(t)).0, t) < DequeueLeft(p, t)
  {
    hide SubQueue.Inv, C.Inv, C.StepThread, TicketLeft;
    Q.Known(p, s, 0);
    CountersKnown(p.counters, t);
    CountersGetOn(p.counters, t);
  }

  lemma CountersKnown(c: C.State, t: C.ThreadId)
    requires C.Inv(c)
    ensures C.PcOk(c, t)
  {
    hide C.PcOk;
  }

  /** The steps consumer t of producer i takes from state k to state m. */
  function DequeueSteps(events: seq<Event>, i: ProducerId, t: C.ThreadId, k: nat, m: nat): nat
    requires k <= m <= |events|
  {
    if k == m then 0
    else
      var e := events[m - 1];
      DequeueSteps(events, i, t, k, m - 1) + if e == Act(i, AdvanceDequeue(t)) then 1 else 0
  }

  /**
   * Dequeue and dequeue_bulk are wait-free: while a call is on, its thread takes no more steps than it had left when it was
   * first looked at, whatever enqueuers and other consumers do.
   */
  lemma {:induction false} DequeueIsWaitFree(
      states: seq<System>, events: seq<Event>, k: nat, m: nat, i: ProducerId, t: C.ThreadId)
    requires Run(states, events) && k <= m < |states| && i in states[k].producers
    requires forall l :: k <= l < m && i in states[l].producers ==> Dequeuing(states[l].producers[i], t)
    ensures i in states[m].producers
    ensures DequeueSteps(events, i, t, k, m) + DequeueLeft(states[m].producers[i], t) <= DequeueLeft(states[k].producers[i], t)
    decreases m
  {
    hide SubQueue.Inv, Step, DequeueLeft, Dequeuing, Distinct, OwnedApart, Windowed;
    if k < m {
      DequeueIsWaitFree(states, events, k, m - 1, i, t);
      RunKnown(states, events, m - 1, i);
      var p, s, e := states[m - 1].producers[i], states[m - 1].shared, events[m - 1];
      if e.Act? && e.i == i { DequeueGetsOn(p, s, e.a, t); }
    }
  }

  lemma DequeueGetsOn(p: Producer, s: Shared, a: Action, t: C.ThreadId)
    requires SubQueue.Inv(p, s) && Dequeuing(p, t)
    ensures DequeueLeft(Step(p, s, a).0, t) + (if a == AdvanceDequeue(t) then 1 else 0) <= DequeueLeft(p, t)
  {
    hide SubQueue.Inv, WorkLeft, TicketLeft, StepWork, StepEnqueue, C.StepThread;
    if a == AdvanceDequeue(t) {
      if t in p.work { WorkGetsOn(p, s, t); } else { ClaimingGetsOn(p, s, t); }
    } else if a.AdvanceEnqueue? {
      EnqueueKeepsWork(p, s, a.supply, a.fails, a.garbage);
    } else if a.AdvanceDequeue? {
      if a.t in p.work { OtherWorkStays(p, s, a.t, t); } else { OthersAtCounters(p.counters, a.t, t); }
    }
  }

  lemma EnqueueKeepsWork(p: Producer, s: Shared, supply: Supply, fails: bool, garbage: Option<BlockId>)
    ensures var p' := StepEnqueue(p, s, supply, fails, garbage).0;
      p'.work == p.work && p'.counters.pcs == p.counters.pcs
  {
    hide CircularLessThan, Wrap, Ring, Ord, Offset, Base, Doubled, LookedUp, WriteElement, Publish, NeedsBlock;
  }

  lemma OtherWorkStays(p: Producer, s: Shared, u: C.ThreadId, t: C.ThreadId)
    requires u in p.work && t != u
    ensures var p' := StepWork(p, s, u, p.work[u]).0;
      && p'.counters == p.counters && (t in p'.work <==> t in p.work) && (t in p.work ==> p'.work[t] == p.work[t])
  {
    hide Ring, Ord, Offset, Base, NextBlock, Indices, BlockAt;
  }
}

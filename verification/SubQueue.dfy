/**
 * Implicit producers sharing a block pool: enqueue, enqueue_bulk, dequeue and dequeue_bulk at the level of blocks, the
 * circular block index and its growth, on top of the counters of DequeueCounters (concurrentqueue.h:2425-3088). Each
 * producer has one enqueuer and any number of consumers; an event is one atomic operation, or the construction, move or
 * destruction of one element.
 */
module SubQueue {
  import opened Options
  import opened CircularIndex
  import opened Modular
  import opened BlockIndex
  import C = DequeueCounters

  type ThreadId = C.ThreadId
  type ProducerId = nat
  type Element = int

  // ---- memory ----

  datatype Block = Block(elementsCompletelyDequeued: nat, elements: map<nat, Element>)

  datatype Shared = Shared(blocks: map<BlockId, Block>, pool: set<BlockId>, created: nat)

  /** What enqueue or enqueue_bulk was called with. */
  datatype Job = One(x: Element) | Many(xs: seq<Element>)

  /**
   * Where a call stands: adding the block that comes next, building elements, or undoing its work. In the last case
   * chain is the blocks it had put in the index, and held the one it had not.
   */
  datatype EnqueuePc =
    | Resting
    | LoadHead(job: Job)
    | LoadKey(job: Job)
    | LoadValue(job: Job, entry: EntryId, slot: nat)
    | Grow(job: Job)
    | StoreKey(job: Job, entry: EntryId, slot: nat)
    | StoreTail(job: Job, entry: EntryId, slot: nat)
    | Requisition(job: Job, entry: EntryId)
    | Reset(job: Job, entry: EntryId, block: BlockId)
    | Construct(job: Job, entry: EntryId, block: BlockId)
    | PublishBlock(job: Job, entry: EntryId, block: BlockId)
    | Fill(job: Job, i: nat)
    | StoreIndex(job: Job)
    | Unbuild(i: nat, built: nat)
    | UndoTail(entry: EntryId, held: Option<BlockId>)
    | UndoValue(entry: EntryId, held: Option<BlockId>)
    | UndoEntry(chain: seq<BlockId>, i: nat)
    | UndoIndex(chain: seq<BlockId>, i: nat)
    | UndoBlocks(chain: seq<BlockId>)

  /** A consumer that has claimed indices first .. first + n - 1. start is the first index of the block in hand. */
  datatype Work =
    | ReadHeader(first: nat, n: nat)
    | ReadTail(first: nat, n: nat, header: nat)
    | ReadKey(first: nat, n: nat, header: nat, tail: nat, number: int)   // number: history, whose slot tail is
    | ReadBlock(first: nat, n: nat, start: nat, header: nat, slot: nat)
    | Move(first: nat, n: nat, start: nat, i: nat, header: nat, slot: nat, block: BlockId)
    | SetEmpty(first: nat, n: nat, start: nat, header: nat, slot: nat, block: BlockId)
    | ClearEntry(first: nat, n: nat, start: nat, header: nat, slot: nat, block: BlockId)
    | GiveBack(first: nat, n: nat, start: nat, header: nat, slot: nat, block: BlockId)
    | Done(first: nat, n: nat)

  datatype Producer = Producer(
    counters: C.State,
    index: Index,
    enqueue: EnqueuePc,
    work: map<ThreadId, Work>,
    // history
    values: seq<Element>,        // what was enqueued at each index
    got: map<nat, Element>,      // what the claimant of each index has moved out
    finished: set<nat>           // the indices counted in elementsCompletelyDequeued
  )

  datatype Supply = FromPool(block: BlockId) | Created | Exhausted

  datatype Action =
    | BeginEnqueue(job: Job)
    | AdvanceEnqueue(supply: Supply, fails: bool, garbage: Option<BlockId>)
    | BeginDequeue(t: ThreadId, max: nat)
    | AdvanceDequeue(t: ThreadId)
    | EndDequeue(t: ThreadId)

  /** A producer as its constructor leaves it; entry values start as whatever the memory held. */
  function NewProducer(garbage: Option<BlockId>): Producer {
    var index := Index(seq(IMPLICIT_INITIAL_INDEX_SIZE, _ => Entry(INVALID_BLOCK_BASE, garbage)), [FreshHeader()], [], [], []);
    Producer(C.INIT, index, Resting, map[], [], map[], {})
  }

  const INITIAL_BLOCK_POOL_SIZE: nat := 32

  const NEW_SHARED := Shared(map[], Below(INITIAL_BLOCK_POOL_SIZE), INITIAL_BLOCK_POOL_SIZE)

  // ---- enqueue ----

  function BlockAt(s: Shared, b: BlockId): Block {
    if b in s.blocks then s.blocks[b] else Block(0, map[])
  }

  function WriteElement(s: Shared, b: BlockId, i: nat, x: Element): Shared {
    s.(blocks := s.blocks[b := BlockAt(s, b).(elements := BlockAt(s, b).elements[Offset(i) := x])])
  }

  /** An element is destroyed again. */
  function EraseElement(s: Shared, b: BlockId, i: nat): Shared {
    s.(blocks := s.blocks[b := BlockAt(s, b).(elements := BlockAt(s, b).elements - {Offset(i)})])
  }

  function SetCount(s: Shared, b: BlockId, n: nat): Shared {
    s.(blocks := s.blocks[b := BlockAt(s, b).(elementsCompletelyDequeued := n)])
  }

  /** add_block_to_free_list: pool blocks go back to the pool, dynamically allocated ones are destroyed. */
  function Release(s: Shared, b: BlockId): Shared {
    if b < INITIAL_BLOCK_POOL_SIZE then s.(pool := s.pool + {b}) else s
  }

  function SetEnqueue(p: Producer, pc: EnqueuePc): Producer { p.(enqueue := pc) }

  function Elements(job: Job): seq<Element> {
    match job case One(x) => [x] case Many(xs) => xs
  }

  /** The block of index i: what following next from the call's first block, in tailBlock or just allocated, arrives at. */
  function BlockOf(x: Index, i: nat): BlockId {
    if Ord(i) < |x.blockOf| then x.blockOf[Ord(i)] else 0
  }

  /** The number of the first block with no index below the tail. */
  function FirstFree(tail: nat): nat { Ord(tail + BLOCK_SIZE - 1) }

  /** The test each form makes for a new block. */
  predicate NeedsBlock(tail: nat, job: Job) {
    match job
    case One(_) => Offset(tail) == 0
    case Many(xs) => (tail + |xs| - 1) / BLOCK_SIZE > (tail - 1) / BLOCK_SIZE
  }

  function FillFrom(job: Job, i: nat): EnqueuePc { if i < |Elements(job)| then Fill(job, i) else StoreIndex(job) }

  /** enqueue_bulk adds blocks until all its elements have a place, and only then builds them. */
  function Onward(x: Index, tail: nat, job: Job): EnqueuePc {
    if Base(|x.blockOf|) < tail + |Elements(job)| then LoadHead(job) else FillFrom(job, 0)
  }

  /** The blocks added so far, if any, go back the way they came. */
  function Unwind(p: Producer): Producer {
    var n := FirstFree(p.counters.tail);
    if |p.index.blockOf| <= n then SetEnqueue(p, Resting)
    else p.(enqueue := UndoEntry(p.index.blockOf[n..], 0), index := Withdrawn(p.index, n))
  }

  function UnbuildFrom(p: Producer, i: nat, built: nat): Producer {
    if i < built then SetEnqueue(p, Unbuild(i, built)) else Unwind(p)
  }

  function StepEnqueue(p: Producer, s: Shared, supply: Supply, fails: bool, garbage: Option<BlockId>): (Producer, Shared) {
    var x, h, tail := p.index, Current(p.index), p.counters.tail;
    match p.enqueue
    case Resting => (p, s)
    case LoadHead(v) =>
      (if CircularLessThan(Wrap(p.counters.head), Wrap(Base(|x.blockOf|) + BLOCK_SIZE)) then SetEnqueue(p, LoadKey(v))
       else Unwind(p), s)
    case LoadKey(v) =>
      var slot := Ring(h.tail + 1, h.capacity);
      var e := IndexAt(h, slot);
      (SetEnqueue(p, if EntryAt(x, e).key == INVALID_BLOCK_BASE then StoreKey(v, e, slot) else LoadValue(v, e, slot)), s)
    case LoadValue(v, e, slot) =>
      (SetEnqueue(p, if EntryAt(x, e).value.None? then StoreKey(v, e, slot) else Grow(v)), s)
    case Grow(v) =>
      if fails then (Unwind(p), s)
      else (p.(enqueue := LoadKey(v), index := Grown(x, garbage)), s)
    case StoreKey(v, e, slot) =>
      (p.(enqueue := StoreTail(v, e, slot), index := TakeEntry(x, e, |x.blockOf|)), s)
    case StoreTail(v, e, slot) =>
      (p.(enqueue := Requisition(v, e), index := MoveTail(x, slot, |x.blockOf|)), s)
    case Requisition(v, e) =>
      (match supply
       case FromPool(b) =>
         if b in s.pool then (SetEnqueue(p, Reset(v, e, b)), s.(pool := s.pool - {b}))
         else (SetEnqueue(p, UndoTail(e, None)), s)
       case Created => (SetEnqueue(p, Reset(v, e, s.created)), s.(created := s.created + 1))
       case Exhausted => (SetEnqueue(p, UndoTail(e, None)), s))
    case Reset(v, e, b) =>
      (SetEnqueue(p, if v.One? then Construct(v, e, b) else PublishBlock(v, e, b)), SetCount(s, b, 0))
    case Construct(v, e, b) =>
      if fails then (SetEnqueue(p, UndoTail(e, Some(b))), s)
      else (SetEnqueue(p, PublishBlock(v, e, b)), if v.One? then WriteElement(s, b, tail, v.x) else s)
    case PublishBlock(v, e, b) =>
      (p.(enqueue := if v.One? then StoreIndex(v) else Onward(Publish(x, e, b), tail, v), index := Publish(x, e, b)), s)
    case Fill(v, i) =>
      if fails || i >= |Elements(v)| then (UnbuildFrom(p, 0, i), s)
      else (SetEnqueue(p, FillFrom(v, i + 1)), WriteElement(s, BlockOf(x, tail + i), tail + i, Elements(v)[i]))
    case StoreIndex(v) =>
      (p.(enqueue := Resting, counters := C.Next(p.counters, C.Enqueue(|Elements(v)|)), values := p.values + Elements(v)), s)
    case Unbuild(i, built) =>
      (UnbuildFrom(p, i + 1, built), if i < built then EraseElement(s, BlockOf(x, tail + i), tail + i) else s)
    case UndoTail(e, b) =>
      (p.(enqueue := UndoValue(e, b), index := MoveTail(x, Ring(h.tail - 1, h.capacity), h.last - 1)), s)
    case UndoValue(e, b) =>
      var p' := p.(index := SetValue(x, e, None));
      (if b.None? then Unwind(p') else SetEnqueue(p', UndoBlocks([b.value])), s)
    case UndoEntry(chain, i) =>
      (p.(enqueue := UndoIndex(chain, i), index := SetValue(x, LookedUp(x, |x.blockOf| + i), None)), s)
    case UndoIndex(chain, i) =>
      (p.(enqueue := if i + 1 < |chain| then UndoEntry(chain, i + 1) else UndoBlocks(chain),
          index := MoveTail(x, Ring(h.tail - 1, h.capacity), h.last - 1)), s)
    case UndoBlocks(chain) =>
      if chain == [] then (SetEnqueue(p, Resting), s)
      else (SetEnqueue(p, if |chain| == 1 then Resting else UndoBlocks(chain[1..])), Release(s, chain[0]))
  }

  // ---- dequeue ----

  function SetWork(p: Producer, t: ThreadId, w: Work): Producer { p.(work := p.work[t := w]) }

  predicate HasStart(w: Work) {
    w.ReadBlock? || w.Move? || w.SetEmpty? || w.ClearEntry? || w.GiveBack?
  }

  function End(w: Work): nat { w.first + w.n }

  /** Where the block in hand, or the claim, ends. */
  function Stop(w: Work): nat
    requires HasStart(w)
  {
    var blockEnd := Base(Ord(w.start) + 1);
    if End(w) < blockEnd then End(w) else blockEnd
  }

  /** On to the next block of the claim, in the next slot of the same index, or done. */
  function NextBlock(x: Index, w: Work): Work
    requires HasStart(w)
  {
    if Stop(w) == End(w) then Done(w.first, w.n)
    else ReadBlock(w.first, w.n, Stop(w), w.header, Ring(w.slot + 1, HeaderAt(x, w.header).capacity))
  }

  function Indices(lo: nat, hi: nat): set<nat> {
    set i | i in Below(hi) && lo <= i
  }

  function StepWork(p: Producer, s: Shared, t: ThreadId, w: Work): (Producer, Shared) {
    var x := p.index;
    match w
    case ReadHeader(first, n) =>
      (SetWork(p, t, ReadTail(first, n, if x.headers == [] then 0 else |x.headers| - 1)), s)
    case ReadTail(first, n, h) =>
      (SetWork(p, t, ReadKey(first, n, h, HeaderAt(x, h).tail, HeaderAt(x, h).last)), s)
    case ReadKey(first, n, h, tail, _) =>
      var header := HeaderAt(x, h);
      var tailBase := EntryAt(x, IndexAt(header, tail)).key;
      var offset := (Base(Ord(first)) - tailBase) / BLOCK_SIZE;
      (SetWork(p, t, ReadBlock(first, n, first, h, Ring(tail + offset, header.capacity))), s)
    case ReadBlock(first, n, start, h, slot) =>
      var value := EntryAt(x, IndexAt(HeaderAt(x, h), slot)).value;
      if value.None? then (p, s) else (SetWork(p, t, Move(first, n, start, start, h, slot, value.value)), s)
    case Move(first, n, start, i, h, slot, b) =>
      if Offset(i) !in BlockAt(s, b).elements then (p, s)
      else
        (SetWork(p, t, if i + 1 == Stop(w) then SetEmpty(first, n, start, h, slot, b)
                       else Move(first, n, start, i + 1, h, slot, b))
           .(got := p.got[i := BlockAt(s, b).elements[Offset(i)]]), s)
    case SetEmpty(first, n, start, h, slot, b) =>
      var count := BlockAt(s, b).elementsCompletelyDequeued + (if start <= Stop(w) then Stop(w) - start else 0);
      var p1 := p.(finished := p.finished + Indices(start, Stop(w)));
      (if count == BLOCK_SIZE then
         SetWork(p1, t, ClearEntry(first, n, start, h, slot, b)).(index := SetPhase(x, Ord(start), Closing(t)))
       else SetWork(p1, t, NextBlock(x, w)),
       SetCount(s, b, count))
    case ClearEntry(first, n, start, h, slot, b) =>
      (SetWork(p, t, GiveBack(first, n, start, h, slot, b))
         .(index := SetPhase(SetValue(x, IndexAt(HeaderAt(x, h), slot), None), Ord(start), Cleared(t))), s)
    case GiveBack(first, n, start, h, slot, b) =>
      (SetWork(p, t, NextBlock(x, w)).(index := SetPhase(x, Ord(start), Returned)), Release(s, b))
    case Done(_, _) => (p, s)
  }

  /** A claim made by the counters becomes work to do. */
  function Claimed(p: Producer, t: ThreadId): Producer {
    var pc := C.PcOf(p.counters, t);
    if pc.Holding? then SetWork(p, t, ReadHeader(pc.first, pc.count)) else p
  }

  function Step(p: Producer, s: Shared, a: Action): (Producer, Shared) {
    match a
    case BeginEnqueue(v) =>
      if !p.enqueue.Resting? then (p, s)
      else (SetEnqueue(p, if NeedsBlock(p.counters.tail, v) then LoadHead(v) else FillFrom(v, 0)), s)
    case AdvanceEnqueue(supply, fails, garbage) => StepEnqueue(p, s, supply, fails, garbage)
    case BeginDequeue(t, max) =>
      if max == 0 then (p, s) else (p.(counters := C.Next(p.counters, C.Begin(t, max))), s)
    case AdvanceDequeue(t) =>
      if t in p.work then StepWork(p, s, t, p.work[t])
      else (Claimed(p.(counters := C.Next(p.counters, C.Advance(t))), t), s)
    case EndDequeue(t) =>
      if t in p.work && p.work[t].Done? then
        (p.(work := p.work - {t}, counters := C.Next(p.counters, C.Release(t))), s)
      else (p, s)
  }

  // ---- the enqueuer's part ----

  /** Enqueue is past storing the key of the block it is adding. */
  predicate Keyed(pc: EnqueuePc) {
    pc.StoreTail? || pc.Requisition? || pc.Reset? || pc.Construct? || pc.PublishBlock? || pc.UndoTail? || pc.UndoValue?
  }

  /** Enqueue has moved the index tail to the new block. */
  predicate Advanced(pc: EnqueuePc) {
    pc.Requisition? || pc.Reset? || pc.Construct? || pc.PublishBlock? || pc.UndoTail?
  }

  /** Enqueue is adding a block, for which number |blockOf| is next. */
  predicate Adding(pc: EnqueuePc) {
    pc.LoadHead? || pc.LoadKey? || pc.LoadValue? || pc.Grow? || pc.StoreKey? || pc.StoreTail? || pc.Requisition? || pc.Reset?
    || pc.Construct? || pc.PublishBlock?
  }

  predicate Unwinding(pc: EnqueuePc) { pc.UndoEntry? || pc.UndoIndex? }

  /** The blocks in use reach the tail, and as far past it as the call has come. */
  ghost predicate CountOk(x: Index, tail: nat, pc: EnqueuePc) {
    var reach := Base(|x.blockOf|);
    && tail <= reach
    && (Adding(pc) ==> reach < tail + |Elements(pc.job)|)
    && (pc.Fill? || pc.StoreIndex? ==> tail + |Elements(pc.job)| <= reach < tail + |Elements(pc.job)| + BLOCK_SIZE)
    && (pc.Unbuild? ==> tail + pc.built <= reach)
    && ((pc.UndoTail? || pc.UndoValue?) && pc.held.Some? ==> reach == tail)
    && (pc.Resting? || Unwinding(pc) || pc.UndoBlocks? ==> reach < tail + BLOCK_SIZE)
  }

  predicate PcOk(pc: EnqueuePc) {
    && (pc.Construct? ==> pc.job.One?)
    && (pc.Fill? ==> pc.i < |Elements(pc.job)|)
    && (pc.Unbuild? ==> pc.i <= pc.built)
    && (Unwinding(pc) ==> pc.i < |pc.chain|)
    && (pc.UndoBlocks? ==> pc.chain != [])
  }

  /** The number whose slot the index tail is in. */
  function TailNumber(x: Index, pc: EnqueuePc): int {
    |x.blockOf| - 1 + (if Advanced(pc) then 1 else if Unwinding(pc) then |pc.chain| - pc.i else 0)
  }

  /** How many numbers not in use have an entry this call has yet to publish or clear. */
  function Pending(pc: EnqueuePc): nat {
    if Keyed(pc) then 1 else if Unwinding(pc) then |pc.chain| else 0
  }

  /** All other numbers not in use have been undone. */
  ghost predicate UndoneAreClear(x: Index, pc: EnqueuePc) {
    forall r :: |x.blockOf| + Pending(pc) <= r < |x.entryOf| ==> EntryAt(x, x.entryOf[r]).value.None?
  }

  /** The entries of the chain being undone: cleared, or still pointing at its blocks. */
  ghost predicate ChainOk(x: Index, chain: seq<BlockId>, cleared: nat) {
    && |x.blockOf| + |chain| <= |x.entryOf|
    && forall r :: |x.blockOf| <= r < |x.blockOf| + |chain| ==>
         EntryAt(x, x.entryOf[r]).value == if r - |x.blockOf| < cleared then None else Some(chain[r - |x.blockOf|])
  }

  ghost predicate EnqueueOk(x: Index, tail: nat, pc: EnqueuePc) {
    var h := Current(x);
    && CountOk(x, tail, pc) && PcOk(pc) && h.last == TailNumber(x, pc) && UndoneAreClear(x, pc)
    && (Keyed(pc) ==> |x.entryOf| > |x.blockOf| && x.entryOf[|x.blockOf|] == pc.entry)
    && (Unwinding(pc) ==> ChainOk(x, pc.chain, if pc.UndoEntry? then pc.i else pc.i + 1))
    && (pc.LoadValue? || pc.StoreKey? || pc.StoreTail? ==>
          pc.slot == Slot(h, |x.blockOf|) && pc.entry == IndexAt(h, pc.slot))
    && (pc.LoadValue? ==> !Unused(x, pc.entry))
    && (pc.StoreKey? ==> Unused(x, pc.entry) || EntryAt(x, pc.entry).value.None?)
    && (pc.Grow? ==> h.window == h.capacity && |x.entryOf| == |x.blockOf|)
  }

  /** The blocks enqueue holds that are not in use as any number. */
  function HeldBlocks(pc: EnqueuePc): seq<BlockId> {
    match pc
    case Reset(_, _, b) => [b]
    case Construct(_, _, b) => [b]
    case PublishBlock(_, _, b) => [b]
    case UndoTail(_, b) => if b.Some? then [b.value] else []
    case UndoValue(_, b) => if b.Some? then [b.value] else []
    case UndoEntry(chain, _) => chain
    case UndoIndex(chain, _) => chain
    case UndoBlocks(chain) => chain
    case _ => []
  }

  predicate Contains(s: Shared, b: BlockId, i: nat, v: Element) {
    Offset(i) in BlockAt(s, b).elements && BlockAt(s, b).elements[Offset(i)] == v
  }

  /** The elements that are built in blocks already in the index. */
  function Built(pc: EnqueuePc): seq<Element> {
    if pc.StoreIndex? then Elements(pc.job)
    else if pc.Fill? && pc.i <= |Elements(pc.job)| then Elements(pc.job)[..pc.i]
    else []
  }

  predicate Occupied(s: Shared, b: BlockId, i: nat) { Offset(i) in BlockAt(s, b).elements }

  /** Of the elements built from the tail on, those before index lo are destroyed again, and the others still there. */
  ghost predicate UnbuiltOk(s: Shared, x: Index, tail: nat, lo: nat, end: nat) {
    forall k: nat :: tail <= k < end ==> (Occupied(s, BlockOf(x, k), k) <==> lo <= k)
  }

  ghost predicate FillingOk(s: Shared, x: Index, tail: nat, pc: EnqueuePc) {
    && (pc.PublishBlock? || pc.Construct? ==> BlockAt(s, pc.block).elementsCompletelyDequeued == 0)
    && (pc.PublishBlock? && pc.job.One? ==> Contains(s, pc.block, tail, pc.job.x))
    && (pc.Unbuild? ==> UnbuiltOk(s, x, tail, tail + pc.i, tail + pc.built))
    && forall j :: 0 <= j < |Built(pc)| ==> Contains(s, BlockOf(x, tail + j), tail + j, Built(pc)[j])
  }

  // ---- block contents ----

  function Range(q: nat): set<nat> { Indices(Base(q), Base(q + 1)) }

  /** Block number q counts its finished indices, and its phase follows from the count. */
  ghost predicate NumberOk(p: Producer, s: Shared, q: nat)
    requires q < |p.index.blockOf| == |p.index.phase|
  {
    var phase := p.index.phase[q];
    && (Holds(phase) ==> BlockAt(s, p.index.blockOf[q]).elementsCompletelyDequeued == |p.finished * Range(q)|)
    && (phase.Live? <==> !(Range(q) <= p.finished))
    && (phase.Closing? || phase.Cleared? ==> phase.owner in p.work && OwnedWork(p.work[phase.owner], phase, q))
  }

  /** The consumer that emptied block number q has it in hand. */
  predicate OwnedWork(w: Work, phase: Phase, q: nat) {
    && (phase.Closing? ==> w.ClearEntry? && Ord(w.start) == q)
    && (phase.Cleared? ==> w.GiveBack? && Ord(w.start) == q)
  }

  /** Index i, enqueued and not yet moved out, is in its block. */
  ghost predicate ElementOk(p: Producer, s: Shared, i: nat) {
    i < |p.values| && i !in p.got ==> Ord(i) < |p.index.blockOf| && Contains(s, p.index.blockOf[Ord(i)], i, p.values[i])
  }

  // ---- consumers ----

  /** The first index of w's claim not yet counted in its block. */
  function From(w: Work): nat {
    match w
    case ReadBlock(_, _, start, _, _) => start
    case Move(_, _, start, _, _, _, _) => start
    case SetEmpty(_, _, start, _, _, _) => start
    case ClearEntry(_, _, _, _, _, _) => Stop(w)
    case GiveBack(_, _, _, _, _, _) => Stop(w)
    case Done(first, n) => first + n
    case _ => w.first
  }

  /** The first index of w's claim not yet moved out. */
  function Moved(w: Work): nat {
    match w
    case Move(_, _, _, i, _, _, _) => i
    case SetEmpty(_, _, _, _, _, _) => Stop(w)
    case _ => From(w)
  }

  /** The first block number whose index entry w still reads or clears. */
  function NeedFrom(w: Work): nat {
    if w.GiveBack? then Ord(w.start) + 1 else if HasStart(w) then Ord(w.start) else Ord(w.first)
  }

  /** The block numbers from lo to the end of the claim are in the index. */
  ghost predicate Covers(h: Header, lo: nat, end: nat) {
    forall r: nat :: lo <= r && Base(r) < end ==> InWindow(h, r)
  }

  ghost predicate StartOk(x: Index, w: Work)
    requires HasStart(w)
  {
    && w.first <= w.start < End(w) && w.header < |x.headers| && w.slot == Slot(x.headers[w.header], Ord(w.start))
    && Covers(x.headers[w.header], NeedFrom(w), End(w))
    && (w.ReadBlock? || (Ord(w.start) < |x.blockOf| && w.block == x.blockOf[Ord(w.start)]))
    && (w.Move? ==> w.start <= w.i < Stop(w))
  }

  ghost predicate LookupOk(x: Index, w: Work)
    requires w.ReadTail? || w.ReadKey?
  {
    && w.header < |x.headers| && Covers(x.headers[w.header], Ord(w.first), End(w))
    && (w.ReadKey? ==>
          InWindow(x.headers[w.header], w.number) && w.tail == Slot(x.headers[w.header], w.number)
          && Base(w.number + 1) >= End(w))
  }

  ghost predicate PlaceOk(x: Index, t: ThreadId, w: Work) {
    if HasStart(w) then
      && StartOk(x, w)
      && (w.ClearEntry? ==> Ord(w.start) < |x.phase| && x.phase[Ord(w.start)] == Closing(t))
      && (w.GiveBack? ==> Ord(w.start) < |x.phase| && x.phase[Ord(w.start)] == Cleared(t))
    else w.ReadTail? || w.ReadKey? ==> LookupOk(x, w)
  }

  /** How far w has come with the indices it claimed. */
  ghost predicate ProgressOk(p: Producer, w: Work) {
    && w.n > 0 && w.first <= From(w) <= Moved(w) <= End(w)
    && (forall k :: w.first <= k < From(w) ==> k in p.finished)
    && (forall k :: From(w) <= k < End(w) ==> k !in p.finished)
    && (forall k :: w.first <= k < Moved(w) ==> k in p.got)
    && (forall k :: Moved(w) <= k < End(w) ==> k !in p.got)
  }

  ghost predicate WorkOk(p: Producer, t: ThreadId)
    requires t in p.work
  {
    var w := p.work[t];
    C.PcOf(p.counters, t) == C.Holding(w.first, w.n) && ProgressOk(p, w) && PlaceOk(p.index, t, w)
  }

  /** A thread still at the counters wants at least one element, and holds nothing. */
  predicate TicketOk(pc: C.Pc) {
    match pc
    case Start(max) => max > 0
    case LoadedTail(max, _) => max > 0
    case LoadedOver(max, _, _) => max > 0
    case Attempt(_, desired) => desired > 0
    case Ticketed(_, desired, _) => desired > 0
    case Partial(actual, _, _) => actual > 0
    case Passing(actual, _) => actual > 0
    case Holding(_, _) => false
    case _ => true
  }

  ghost predicate ThreadOk(p: Producer, t: ThreadId) {
    if t in p.work then WorkOk(p, t) else TicketOk(C.PcOf(p.counters, t))
  }

  /** Claimed index k is finished or in its claimant's hands. */
  ghost predicate IndexSettled(p: Producer, k: nat)
    requires k < |p.counters.claims|
  {
    var t := p.counters.claims[k];
    k in p.finished || (t in p.work && From(p.work[t]) <= k < End(p.work[t]))
  }

  ghost predicate HistoryOk(p: Producer) {
    && |p.values| == p.counters.tail
    && (forall i :: i in p.finished ==> i in p.got)
    && (forall i :: i in p.got ==> i < p.counters.head && i < |p.values| && p.got[i] == p.values[i])
    && (forall k :: 0 <= k < |p.counters.claims| ==> IndexSettled(p, k))
  }

  ghost predicate ContentsOk(p: Producer, s: Shared) {
    && |p.index.phase| == |p.index.blockOf|
    && (forall q :: 0 <= q < |p.index.blockOf| ==> NumberOk(p, s, q))
    && (forall i :: ElementOk(p, s, i))
  }

  ghost predicate Inv(p: Producer, s: Shared) {
    && C.Inv(p.counters) && IndexOk(p.index) && EnqueueOk(p.index, p.counters.tail, p.enqueue)
    && FillingOk(s, p.index, p.counters.tail, p.enqueue)
    && HistoryOk(p) && ContentsOk(p, s)
    && (forall t :: ThreadOk(p, t))
  }

  // ---- whose each block is ----

  predicate OwnsNumber(x: Index, q: int, b: BlockId) {
    0 <= q < |x.blockOf| && q < |x.phase| && !x.phase[q].Returned? && x.blockOf[q] == b
  }

  ghost predicate Owns(p: Producer, b: BlockId) {
    (exists q :: OwnsNumber(p.index, q, b)) || b in HeldBlocks(p.enqueue)
  }

  /** No block serves twice in one producer. */
  ghost predicate Distinct(p: Producer) {
    && (forall q, r: int, b: BlockId :: OwnsNumber(p.index, q, b) && OwnsNumber(p.index, r, b) ==> q == r)
    && (forall q: int, b: BlockId :: OwnsNumber(p.index, q, b) ==> b !in HeldBlocks(p.enqueue))
    && (forall i, j :: 0 <= i < j < |HeldBlocks(p.enqueue)| ==> HeldBlocks(p.enqueue)[i] != HeldBlocks(p.enqueue)[j])
  }

  /** The queue a producer implements: what is enqueued and not yet claimed, oldest first. */
  ghost function Contents(p: Producer): seq<Element>
    requires p.counters.head <= p.counters.tail == |p.values|
  {
    p.values[p.counters.head..]
  }
}

/** Every atomic operation of a sub-queue keeps its invariant. */
module SubQueueSafety {
  import opened Options
  import opened CircularIndex
  import opened Modular
  import opened BlockIndex
  import opened BlockIndexSafety
  import opened SubQueue
  import C = DequeueCounters

  // ---- block numbers and offsets ----

  lemma OrdIs(i: nat)
    ensures Base(Ord(i)) <= i < Base(Ord(i) + 1) && i == Base(Ord(i)) + Offset(i) && Offset(i) < BLOCK_SIZE
  {
  }

  lemma OrdOf(i: nat, q: int)
    requires Base(q) <= i < Base(q + 1)
    ensures Ord(i) == q
  {
  }

  lemma OrdGrows(i: nat, j: nat)
    requires i <= j
    ensures Ord(i) <= Ord(j)
  {
  }

  lemma InRange(q: nat, i: nat)
    ensures i in Range(q) <==> Ord(i) == q
  {
  }

  // ---- what the invariant says of one thread or one index ----

  lemma Known(p: Producer, s: Shared, t: ThreadId)
    requires Inv(p, s)
    ensures C.Inv(p.counters) && IndexOk(p.index) && EnqueueOk(p.index, p.counters.tail, p.enqueue)
    ensures FillingOk(s, p.index, p.counters.tail, p.enqueue) && HistoryOk(p) && ContentsOk(p, s) && ThreadOk(p, t)
  {
    hide C.Inv, IndexOk, EnqueueOk, FillingOk, HistoryOk, ContentsOk, ThreadOk;
  }

  lemma HeadAtMostTail(c: C.State)
    requires C.Inv(c)
    ensures c.head <= c.tail
  {
    C.PassingFit(c, |c.tickets|);
    assert c.tickets[..|c.tickets|] == c.tickets;
  }

  /** The blocks published reach at least to the tail. */
  lemma BlocksReachTail(x: Index, tail: nat, pc: EnqueuePc, i: nat)
    requires EnqueueOk(x, tail, pc) && i < tail
    ensures Ord(i) < |x.blockOf|
  {
  }

  /** An index enqueued and not finished lies in a live block. */
  lemma UnfinishedIsLive(p: Producer, s: Shared, i: nat)
    requires Inv(p, s) && i < p.counters.tail && i !in p.finished
    ensures Ord(i) < |p.index.blockOf| == |p.index.phase| && p.index.phase[Ord(i)].Live?
  {
    hide Inv, Ord, Range;
    Known(p, s, 0);
    BlocksReachTail(p.index, p.counters.tail, p.enqueue, i);
    assert NumberOk(p, s, Ord(i));
    InRange(Ord(i), i);
  }

  /** A block in use for an index not yet enqueued is live. */
  lemma UpcomingIsLive(p: Producer, s: Shared, i: nat)
    requires Inv(p, s) && p.counters.tail <= i && Ord(i) < |p.index.blockOf|
    ensures |p.index.blockOf| == |p.index.phase| && p.index.phase[Ord(i)].Live?
    ensures OwnsNumber(p.index, Ord(i), BlockOf(p.index, i))
  {
    hide Inv, IndexOk, EnqueueOk, FillingOk, Range, Ord, C.Inv;
    Known(p, s, 0);
    HeadAtMostTail(p.counters);
    InRange(Ord(i), i);
    assert NumberOk(p, s, Ord(i));
  }

  /** What a consumer holds is below headIndex, and logged as its own. */
  lemma ClaimKnown(p: Producer, s: Shared, t: ThreadId)
    requires Inv(p, s) && t in p.work
    ensures var w := p.work[t];
      && w.n > 0 && End(w) <= p.counters.head == |p.counters.claims| <= p.counters.tail
      && forall k :: w.first <= k < End(w) ==> p.counters.claims[k] == t
    ensures WorkOk(p, t)
  {
    hide Inv, ProgressOk, PlaceOk, EnqueueOk, ContentsOk, FillingOk, HistoryOk, IndexOk;
    Known(p, s, t);
    HeadAtMostTail(p.counters);
    C.ThreadOk(p.counters, t);
    assert ProgressOk(p, p.work[t]);
    WantsSome(p, p.work[t]);
  }

  lemma WantsSome(p: Producer, w: Work)
    requires ProgressOk(p, w)
    ensures w.n > 0
  {
  }

  lemma ClaimsDisjoint(p: Producer, s: Shared, t: ThreadId, u: ThreadId)
    requires Inv(p, s) && t in p.work && u in p.work && t != u
    ensures End(p.work[t]) <= p.work[u].first || End(p.work[u]) <= p.work[t].first
  {
    hide Inv, WorkOk;
    ClaimKnown(p, s, t);
    ClaimKnown(p, s, u);
    C.ClaimantsDiffer(p.counters.claims, p.work[t].first, p.work[t].n, t, p.work[u].first, p.work[u].n, u);
  }

  /** The block numbers a consumer has yet to visit, or to clear, are still in the index. */
  ghost predicate LiveAhead(x: Index, w: Work) {
    forall r: nat :: NeedFrom(w) <= r && Base(r) < End(w) ==> r < |x.phase| && Holds(x.phase[r])
  }

  /** Each block number ahead of w has an index in w's claim that is not finished. */
  lemma UnfinishedAhead(p: Producer, t: ThreadId, r: nat) returns (i: nat)
    requires t in p.work && ProgressOk(p, p.work[t]) && PlaceOk(p.index, t, p.work[t]) && !p.work[t].Done?
    requires NeedFrom(p.work[t]) <= r && Base(r) < End(p.work[t]) && !(p.work[t].ClearEntry? && r == Ord(p.work[t].start))
    ensures From(p.work[t]) <= i < End(p.work[t]) && Ord(i) == r
  {
    var w := p.work[t];
    i := if Base(r) < From(w) then From(w) else Base(r);
  }

  lemma AheadIsLive(p: Producer, s: Shared, t: ThreadId)
    requires Inv(p, s) && t in p.work && !p.work[t].Done?
    ensures LiveAhead(p.index, p.work[t])
  {
    hide Inv, ProgressOk, StartOk, LookupOk, Ord;
    ClaimKnown(p, s, t);
    var w := p.work[t];
    forall r: nat | NeedFrom(w) <= r && Base(r) < End(w) ensures r < |p.index.phase| && Holds(p.index.phase[r]) {
      if !(w.ClearEntry? && r == Ord(w.start)) {
        var i := UnfinishedAhead(p, t, r);
        NotFinished(p, w, i);
        UnfinishedIsLive(p, s, i);
      }
    }
  }

  lemma NotFinished(p: Producer, w: Work, i: nat)
    requires ProgressOk(p, w) && From(w) <= i < End(w)
    ensures i !in p.finished
  {
  }

  // ---- what a step leaves alone ----

  lemma CoversKept(x: Index, x': Index, w: Work)
    requires WindowsKept(x, x') && LiveAhead(x, w) && w.n > 0
    requires (HasStart(w) || w.ReadTail? || w.ReadKey?) && w.header < |x.headers|
    requires Covers(x.headers[w.header], NeedFrom(w), End(w))
    ensures w.header < |x'.headers| && Covers(x'.headers[w.header], NeedFrom(w), End(w))
    ensures forall r :: Slot(x'.headers[w.header], r) == Slot(x.headers[w.header], r)
  {
    assert HeaderKept(x, x.headers[w.header], x'.headers[w.header]);
    SameSlots(x.headers[w.header], x'.headers[w.header]);
    hide Slot;
    var lo, end := NeedFrom(w), End(w);
    hide NeedFrom;
    forall r: nat | lo <= r && Base(r) < end ensures InWindow(x'.headers[w.header], r) {
      assert InWindow(x.headers[w.header], r) && Holds(x.phase[r]);
    }
  }

  /** Number w read as the tail's is still in its header, because the claim's first number is. */
  lemma NumberKept(x: Index, x': Index, w: Work)
    requires WindowsKept(x, x') && LiveAhead(x, w) && w.n > 0 && w.ReadKey? && LookupOk(x, w)
    ensures InWindow(x'.headers[w.header], w.number)
  {
    OrdIs(w.first);
    hide Ord, Slot;
    assert HeaderKept(x, x.headers[w.header], x'.headers[w.header]);
    assert Ord(w.first) <= w.number;
    assert Holds(x.phase[Ord(w.first)]);
  }

  lemma PlaceKept(x: Index, x': Index, t: ThreadId, w: Work)
    requires PlaceOk(x, t, w) && WindowsKept(x, x') && w.n > 0 && (w.Done? || LiveAhead(x, w))
    requires x.blockOf <= x'.blockOf && |x.phase| <= |x'.phase|
    requires (w.ClearEntry? || w.GiveBack?) && Ord(w.start) < |x.phase| ==> x'.phase[Ord(w.start)] == x.phase[Ord(w.start)]
    ensures PlaceOk(x', t, w)
  {
    hide Ord, LiveAhead, WindowsKept;
    if !w.Done? && !w.ReadHeader? {
      CoversKept(x, x', w);
      if w.ReadKey? { NumberKept(x, x', w); }
      hide Covers, Slot;
    }
  }

  /** Thread u's own history, when a step of another keeps u's indices as they were. */
  lemma ThreadKept(p: Producer, s: Shared, p': Producer, u: ThreadId)
    requires Inv(p, s)
    requires (u in p'.work <==> u in p.work) && (u in p.work ==> p'.work[u] == p.work[u])
    requires C.PcOf(p'.counters, u) == C.PcOf(p.counters, u)
    requires u in p.work ==> forall k :: p.work[u].first <= k < End(p.work[u]) ==>
               (k in p'.finished <==> k in p.finished) && (k in p'.got <==> k in p.got)
    requires WindowsKept(p.index, p'.index) && p.index.blockOf <= p'.index.blockOf && |p.index.phase| <= |p'.index.phase|
    requires u in p.work && (p.work[u].ClearEntry? || p.work[u].GiveBack?) && Ord(p.work[u].start) < |p.index.phase| ==>
               p'.index.phase[Ord(p.work[u].start)] == p.index.phase[Ord(p.work[u].start)]
    ensures ThreadOk(p', u)
  {
    hide Inv, PlaceOk, Ord, WindowsKept, LiveAhead, TicketOk;
    Known(p, s, u);
    hide IndexOk, EnqueueOk, FillingOk, HistoryOk, ContentsOk;
    if u in p.work {
      var w := p.work[u];
      ClaimKnown(p, s, u);
      if !w.Done? { AheadIsLive(p, s, u); }
      PlaceKept(p.index, p'.index, u, w);
      ProgressKept(p, p', w);
    }
  }

  lemma ProgressKept(p: Producer, p': Producer, w: Work)
    requires ProgressOk(p, w)
    requires forall k :: w.first <= k < End(w) ==> (k in p'.finished <==> k in p.finished) && (k in p'.got <==> k in p.got)
    ensures ProgressOk(p', w)
  {
    hide From, Moved;
  }

  // ---- enqueue ----

  /** What block b, as number q, holds for the first n indices, and its count, stay. */
  ghost predicate SameBlock(s: Shared, s': Shared, b: BlockId, q: int, n: nat) {
    && BlockAt(s', b).elementsCompletelyDequeued == BlockAt(s, b).elementsCompletelyDequeued
    && (forall i: nat, v :: i < n && Ord(i) == q && Contains(s, b, i, v) ==> Contains(s', b, i, v))
  }

  ghost predicate BlocksKept(p: Producer, s: Shared, s': Shared) {
    forall q, b :: OwnsNumber(p.index, q, b) ==> SameBlock(s, s', b, q, |p.values|)
  }

  lemma NumberContentsKept(p: Producer, s: Shared, p': Producer, s': Shared, q: nat)
    requires q < |p.index.blockOf| == |p.index.phase| && NumberOk(p, s, q) && BlocksKept(p, s, s')
    requires p'.work == p.work && p'.finished == p.finished
    requires p.index.blockOf <= p'.index.blockOf && p.index.phase <= p'.index.phase && |p'.index.blockOf| == |p'.index.phase|
    ensures NumberOk(p', s', q)
  {
    hide Range, SameBlock;
    if Holds(p.index.phase[q]) {
      assert OwnsNumber(p.index, q, p.index.blockOf[q]);
      SameCount(s, s', p.index.blockOf[q], q, |p.values|);
    }
  }

  lemma SameCount(s: Shared, s': Shared, b: BlockId, q: int, n: nat)
    requires SameBlock(s, s', b, q, n)
    ensures BlockAt(s', b).elementsCompletelyDequeued == BlockAt(s, b).elementsCompletelyDequeued
  {
  }

  lemma ElementContentsKept(p: Producer, s: Shared, p': Producer, s': Shared, i: nat)
    requires Inv(p, s) && BlocksKept(p, s, s') && p'.got == p.got && p.index.blockOf <= p'.index.blockOf
    requires i < |p.values| ==> i < |p'.values| && p'.values[i] == p.values[i]
    requires i < |p.values|
    ensures ElementOk(p', s', i)
  {
    hide Inv, Contains, Ord;
    Known(p, s, 0);
    if i !in p.got {
      UnfinishedIsLive(p, s, i);
      assert OwnsNumber(p.index, Ord(i), p.index.blockOf[Ord(i)]);
      assert ElementOk(p, s, i);
    }
  }

  lemma ContentsKept(p: Producer, s: Shared, p': Producer, s': Shared)
    requires Inv(p, s) && BlocksKept(p, s, s')
    requires p'.work == p.work && p'.finished == p.finished && p'.got == p.got && p'.values == p.values
    requires p'.index.blockOf == p.index.blockOf && p'.index.phase == p.index.phase
    ensures ContentsOk(p', s')
  {
    hide Inv, NumberOk, ElementOk, BlocksKept;
    Known(p, s, 0);
    hide IndexOk, EnqueueOk, FillingOk, HistoryOk;
    forall q | 0 <= q < |p'.index.blockOf| ensures NumberOk(p', s', q) {
      NumberContentsKept(p, s, p', s', q);
    }
    forall i: nat ensures ElementOk(p', s', i) {
      if i < |p.values| { ElementContentsKept(p, s, p', s', i); } else { NotEnqueued(p', s', i); }
    }
  }

  lemma NotEnqueued(p: Producer, s: Shared, i: nat)
    requires i >= |p.values|
    ensures ElementOk(p, s, i)
  {
  }

  lemma ThreadsKept(p: Producer, s: Shared, p': Producer)
    requires Inv(p, s) && p'.work == p.work && p'.finished == p.finished && p'.got == p.got
    requires p'.counters.pcs == p.counters.pcs
    requires WindowsKept(p.index, p'.index) && p.index.blockOf <= p'.index.blockOf && p.index.phase <= p'.index.phase
    ensures forall u :: ThreadOk(p', u)
  {
    hide Inv, ThreadOk, WindowsKept;
    forall u ensures ThreadOk(p', u) {
      ThreadKept(p, s, p', u);
    }
  }

  /** A step of enqueue that neither publishes a block nor an element. */
  lemma EnqueueFrame(p: Producer, s: Shared, p': Producer, s': Shared)
    requires Inv(p, s) && BlocksKept(p, s, s')
    requires p' == p.(enqueue := p'.enqueue, index := p'.index)
    requires IndexOk(p'.index) && WindowsKept(p.index, p'.index)
    requires p'.index.blockOf == p.index.blockOf && p'.index.phase == p.index.phase
    requires EnqueueOk(p'.index, p.counters.tail, p'.enqueue) && FillingOk(s', p'.index, p.counters.tail, p'.enqueue)
    ensures Inv(p', s')
  {
    hide IndexOk, WindowsKept, BlocksKept, EnqueueOk, FillingOk, ContentsOk, HistoryOk, ThreadOk, C.Inv;
    ThreadsKept(p, s, p');
    ContentsKept(p, s, p', s');
    assert HistoryOk(p') by { SameHistory(p, p'); }
  }

  lemma SameHistory(p: Producer, p': Producer)
    requires HistoryOk(p) && p'.work == p.work && p'.finished == p.finished && p'.got == p.got
    requires p'.values == p.values && p'.counters == p.counters
    ensures HistoryOk(p')
  {
    forall k | 0 <= k < |p'.counters.claims| ensures IndexSettled(p', k) {
      assert IndexSettled(p, k);
    }
  }

  lemma SameIndexKept(x: Index)
    ensures WindowsKept(x, x)
  {
  }

  lemma SameBlocksKept(p: Producer, s: Shared, s': Shared)
    requires s'.blocks == s.blocks
    ensures BlocksKept(p, s, s')
  {
  }

  /** Steps of enqueue that only move its program counter. */
  lemma PcKeepsInv(p: Producer, s: Shared, pc: EnqueuePc)
    requires Inv(p, s)
    requires EnqueueOk(p.index, p.counters.tail, pc) && FillingOk(s, p.index, p.counters.tail, pc)
    ensures Inv(SetEnqueue(p, pc), s)
  {
    hide IndexOk, WindowsKept, BlocksKept, EnqueueOk, FillingOk, Inv;
    Known(p, s, 0);
    SameIndexKept(p.index);
    SameBlocksKept(p, s, s);
    EnqueueFrame(p, s, SetEnqueue(p, pc), s);
  }

  /** Both tests ask whether the last element lies past the blocks in use. */
  lemma NeedsBlockIs(tail: nat, job: Job, blocks: nat)
    requires tail <= Base(blocks) < tail + BLOCK_SIZE
    ensures NeedsBlock(tail, job) <==> Base(blocks) < tail + |Elements(job)|
    ensures blocks == FirstFree(tail)
  {
  }

  lemma BeginEnqueueKeepsInv(p: Producer, s: Shared, v: Job)
    requires Inv(p, s) && p.enqueue.Resting?
    ensures Inv(SetEnqueue(p, if NeedsBlock(p.counters.tail, v) then LoadHead(v) else FillFrom(v, 0)), s)
  {
    hide Inv, IndexOk, Slot;
    Known(p, s, 0);
    NeedsBlockIs(p.counters.tail, v, |p.index.blockOf|);
    hide NeedsBlock, C.Inv, HistoryOk, ContentsOk, ThreadOk;
    PcKeepsInv(p, s, if NeedsBlock(p.counters.tail, v) then LoadHead(v) else FillFrom(v, 0));
  }

  // ---- giving up ----

  /** The call has nothing left but the blocks it put in the index: whatever else it took is as before. */
  ghost predicate Retractable(x: Index, pc: EnqueuePc) {
    && (pc.LoadHead? || pc.Grow? || pc.Fill? || pc.Unbuild? || (pc.UndoValue? && pc.held.None?))
    && (pc.UndoValue? ==> forall r :: |x.blockOf| <= r < |x.entryOf| ==> EntryAt(x, x.entryOf[r]).value.None?)
  }

  lemma PlaceWithdrawn(x: Index, n: nat, t: ThreadId, w: Work)
    requires PlaceOk(x, t, w) && n <= |x.blockOf| == |x.phase| && End(w) <= Base(n)
    ensures PlaceOk(Withdrawn(x, n), t, w)
  {
    if HasStart(w) {
      OrdIs(w.start);
      assert w.start < Base(n);
    }
    hide Ord, Slot, Covers, InWindow;
  }

  lemma FirstFreeIs(tail: nat)
    ensures tail <= Base(FirstFree(tail)) < tail + BLOCK_SIZE
    ensures forall i: nat :: i < tail ==> Ord(i) < FirstFree(tail)
  {
  }

  lemma WithdrawnContents(p: Producer, s: Shared, p': Producer, n: nat)
    requires Inv(p, s) && n == FirstFree(p.counters.tail) < |p.index.blockOf|
    requires p' == p.(enqueue := p'.enqueue, index := Withdrawn(p.index, n))
    ensures ContentsOk(p', s)
  {
    hide Inv, Contains, Range, Ord, FirstFree;
    Known(p, s, 0);
    FirstFreeIs(p.counters.tail);
    hide IndexOk, EnqueueOk, FillingOk, ThreadOk, C.Inv;
    assert |p.values| == p.counters.tail;
    forall q | 0 <= q < |p'.index.blockOf| ensures NumberOk(p', s, q) {
      assert NumberOk(p, s, q);
    }
    forall i: nat ensures ElementOk(p', s, i) {
      assert ElementOk(p, s, i);
    }
  }

  lemma WithdrawnThreads(p: Producer, s: Shared, p': Producer, n: nat)
    requires Inv(p, s) && n == FirstFree(p.counters.tail) < |p.index.blockOf|
    requires p' == p.(enqueue := p'.enqueue, index := Withdrawn(p.index, n))
    ensures forall u :: ThreadOk(p', u)
  {
    hide Inv, FirstFree;
    forall u ensures ThreadOk(p', u) {
      Known(p, s, u);
      FirstFreeIs(p.counters.tail);
      hide IndexOk, EnqueueOk, FillingOk, HistoryOk, C.Inv, NumberOk, ElementOk, PlaceOk, TicketOk;
      if u in p.work {
        ClaimKnown(p, s, u);
        PlaceWithdrawn(p.index, n, u, p.work[u]);
        SameProgress(p, p', p.work[u]);
      }
    }
  }

  lemma SameProgress(p: Producer, p': Producer, w: Work)
    requires ProgressOk(p, w) && p'.got == p.got && p'.finished == p.finished
    ensures ProgressOk(p', w)
  {
  }

  /** Every number of the chain still points at its block. */
  lemma ChainKnown(p: Producer, s: Shared, n: nat)
    requires Inv(p, s) && n == FirstFree(p.counters.tail) < |p.index.blockOf|
    ensures |p.index.phase| == |p.index.blockOf| <= |p.index.entryOf|
    ensures forall r :: n <= r < |p.index.blockOf| ==>
              p.index.phase[r].Live? && EntryAt(p.index, p.index.entryOf[r]).value == Some(p.index.blockOf[r])
  {
    hide Inv, FirstFree, Slot;
    Known(p, s, 0);
    FirstFreeIs(p.counters.tail);
    CurrentKnown(p.index);
    hide IndexOk, EnqueueOk, FillingOk, HistoryOk, C.Inv, NumberOk, ElementOk, RingOk, HeaderOk, ThreadOk;
    forall r | n <= r < |p.index.blockOf|
      ensures p.index.phase[r].Live? && EntryAt(p.index, p.index.entryOf[r]).value == Some(p.index.blockOf[r])
    {
      assert Ord(Base(r)) == r;
      UpcomingIsLive(p, s, Base(r));
      HoldsInWindow(p.index, r);
      NumberKnown(p.index, r);
    }
  }

  lemma UnwindKeepsInv(p: Producer, s: Shared)
    requires Inv(p, s) && Retractable(p.index, p.enqueue)
    ensures Inv(Unwind(p), s)
  {
    hide Inv, IndexOk, FirstFree, C.Inv, HistoryOk, ThreadOk, ContentsOk, WindowsKept, FillingOk, Slot;
    Known(p, s, 0);
    FirstFreeIs(p.counters.tail);
    var x, n, p' := p.index, FirstFree(p.counters.tail), Unwind(p);
    if |x.blockOf| <= n {
      assert FillingOk(s, x, p.counters.tail, Resting) by { NothingBuilt(s, x, p.counters.tail, Resting); }
      PcKeepsInv(p, s, Resting);
    } else {
      ChainKnown(p, s, n);
      WithdrawKeeps(x, n);
      WithdrawnContents(p, s, p', n);
      WithdrawnThreads(p, s, p', n);
      NothingBuilt(s, p'.index, p.counters.tail, p'.enqueue);
      assert HistoryOk(p') by { SameHistory(p, p'); }
      assert EnqueueOk(p'.index, p.counters.tail, p'.enqueue);
      hide EnqueueOk;
      FromParts(p', s);
    }
  }

  lemma NothingBuilt(s: Shared, x: Index, tail: nat, pc: EnqueuePc)
    requires Built(pc) == [] && !pc.PublishBlock? && !pc.Construct? && !pc.Unbuild?
    ensures FillingOk(s, x, tail, pc)
  {
  }

  lemma LoadKeepsInv(p: Producer, s: Shared)
    requires Inv(p, s) && (p.enqueue.LoadHead? || p.enqueue.LoadKey?)
    ensures Inv(StepEnqueue(p, s, Exhausted, false, None).0, s)
  {
    hide Inv, Unwind;
    var x, pc := p.index, StepEnqueue(p, s, Exhausted, false, None).0.enqueue;
    if p.enqueue.LoadHead? && !CircularLessThan(Wrap(p.counters.head), Wrap(Base(|x.blockOf|) + BLOCK_SIZE)) {
      UnwindKeepsInv(p, s);
    } else {
      Known(p, s, 0);
      CurrentKnown(x);
      hide IndexOk, RingOk, Maps, ContentsOk, HistoryOk, ThreadOk, C.Inv;
      SlotAdvance(Current(x), Current(x).last, 1);
      assert p.enqueue.LoadKey? ==> Ring(Current(x).tail + 1, Current(x).capacity) == Slot(Current(x), |x.blockOf|);
      hide Slot, Ring;
      PcKeepsInv(p, s, pc);
    }
  }

  lemma SpareSlot(x: Index)
    requires IndexOk(x) && Current(x).window < Current(x).capacity && |x.entryOf| == |x.blockOf|
    ensures Unused(x, IndexAt(Current(x), Slot(Current(x), |x.blockOf|)))
  {
    hide IndexOk;
    CurrentKnown(x);
    SlotWraps(Current(x), |x.blockOf| - Current(x).capacity);
    hide Slot, Unused;
    assert SpareOk(x, Current(x));
  }

  lemma UndoneSlot(x: Index)
    requires IndexOk(x) && |x.entryOf| > |x.blockOf|
    ensures IndexAt(Current(x), Slot(Current(x), |x.blockOf|)) == x.entryOf[|x.blockOf|]
  {
    hide IndexOk, Slot;
    CurrentKnown(x);
    NumberKnown(x, |x.blockOf|);
  }

  /** If the entry offered is keyed and still points at a block, the ring is full of numbers that hold blocks. */
  lemma LoadValueOk(x: Index, tail: nat, pc: EnqueuePc)
    requires IndexOk(x) && EnqueueOk(x, tail, pc) && pc.LoadValue?
    ensures EnqueueOk(x, tail, if EntryAt(x, pc.entry).value.None? then StoreKey(pc.job, pc.entry, pc.slot) else Grow(pc.job))
  {
    hide IndexOk, Slot, Base;
    CurrentKnown(x);
    hide RingOk, HeaderOk;
    if EntryAt(x, pc.entry).value.Some? {
      if |x.entryOf| > |x.blockOf| {
        UndoneSlot(x);
      } else if Current(x).window < Current(x).capacity {
        SpareSlot(x);
      }
    }
  }

  lemma LoadValueKeepsInv(p: Producer, s: Shared)
    requires Inv(p, s) && p.enqueue.LoadValue?
    ensures Inv(StepEnqueue(p, s, Exhausted, false, None).0, s)
  {
    hide Inv, IndexOk, EnqueueOk, HistoryOk, ContentsOk, ThreadOk, C.Inv;
    Known(p, s, 0);
    LoadValueOk(p.index, p.counters.tail, p.enqueue);
    var pc := StepEnqueue(p, s, Exhausted, false, None).0.enqueue;
    NothingBuilt(s, p.index, p.counters.tail, pc);
    hide FillingOk;
    PcKeepsInv(p, s, pc);
  }

  lemma GrownOk(x: Index, tail: nat, pc: EnqueuePc, garbage: Option<BlockId>)
    requires IndexOk(x) && EnqueueOk(x, tail, pc) && pc.Grow?
    ensures Full(x) && EnqueueOk(Grown(x, garbage), tail, LoadKey(pc.job))
  {
    hide IndexOk, Slot, Base;
    assert Full(x);
    GrowthLeavesRoom(x, garbage);
    hide IndexOk, WindowsKept, Unused, InWindow, Doubled;
  }

  lemma GrowKeepsInv(p: Producer, s: Shared, garbage: Option<BlockId>)
    requires Inv(p, s) && p.enqueue.Grow?
    ensures Inv(p.(enqueue := LoadKey(p.enqueue.job), index := Grown(p.index, garbage)), s)
  {
    hide Inv, BlocksKept, IndexOk, WindowsKept, EnqueueOk, HistoryOk, ContentsOk, ThreadOk, C.Inv, Full;
    Known(p, s, 0);
    var p' := p.(enqueue := LoadKey(p.enqueue.job), index := Grown(p.index, garbage));
    GrownOk(p.index, p.counters.tail, p.enqueue, garbage);
    GrowthLeavesRoom(p.index, garbage);
    SameBlocksKept(p, s, s);
    NothingBuilt(s, p'.index, p.counters.tail, p'.enqueue);
    hide FillingOk;
    EnqueueFrame(p, s, p', s);
  }

  lemma StoreKeyAgainKeepsInv(p: Producer, s: Shared)
    requires Inv(p, s) && p.enqueue.StoreKey? && |p.index.entryOf| > |p.index.blockOf|
    ensures Inv(StepEnqueue(p, s, Exhausted, false, None).0, s)
  {
    hide Inv, BlocksKept;
    Known(p, s, 0);
    TakeAgain(p.index, p.enqueue.entry);
    hide IndexOk, HistoryOk, ContentsOk, ThreadOk, C.Inv;
    PcKeepsInv(p, s, StepEnqueue(p, s, Exhausted, false, None).0.enqueue);
  }

  lemma StoreKeyKeepsInv(p: Producer, s: Shared)
    requires Inv(p, s) && p.enqueue.StoreKey? && |p.index.entryOf| == |p.index.blockOf|
    ensures Inv(StepEnqueue(p, s, Exhausted, false, None).0, s)
  {
    hide Inv, BlocksKept, IndexOk, Slot;
    Known(p, s, 0);
    var x, e := p.index, p.enqueue.entry;
    var p' := StepEnqueue(p, s, Exhausted, false, None).0;
    CurrentKnown(x);
    hide RingOk, HeaderOk;
    TakeFresh(x, e);
    SameSlots(Current(x), Current(p'.index));
    SameBlocksKept(p, s, s);
    hide WindowsKept, Takable;
    EnqueueFrame(p, s, p', s);
  }

  lemma TailMoved(x: Index, tail: nat, pc: EnqueuePc)
    requires IndexOk(x) && EnqueueOk(x, tail, pc) && pc.StoreTail?
    ensures EnqueueOk(MoveTail(x, pc.slot, |x.blockOf|), tail, Requisition(pc.job, pc.entry))
    ensures pc.slot == Slot(Current(x), |x.blockOf|) && |x.blockOf| <= Current(x).top
  {
    hide IndexOk, Slot, Ring, Base;
    CurrentKnown(x);
    hide RingOk, HeaderOk;
  }

  /** What undoing makes of the program counter when the tail is rewound. */
  function Rewound(pc: EnqueuePc): EnqueuePc
    requires pc.UndoTail? || pc.UndoIndex?
  {
    if pc.UndoTail? then UndoValue(pc.entry, pc.held)
    else if pc.i + 1 < |pc.chain| then UndoEntry(pc.chain, pc.i + 1)
    else UndoBlocks(pc.chain)
  }

  lemma RewoundOk(x: Index, tail: nat, pc: EnqueuePc, slot: nat)
    requires EnqueueOk(x, tail, pc) && (pc.UndoTail? || pc.UndoIndex?) && |x.headers| > 0
    ensures EnqueueOk(MoveTail(x, slot, Current(x).last - 1), tail, Rewound(pc))
  {
    hide Slot, Base;
  }

  lemma TailRewound(x: Index, tail: nat, pc: EnqueuePc)
    requires IndexOk(x) && EnqueueOk(x, tail, pc) && (pc.UndoTail? || pc.UndoIndex?)
    ensures var h := Current(x); var slot := Ring(h.tail - 1, h.capacity);
      && slot == Slot(h, h.last - 1) && -1 <= h.last - 1 <= h.top
      && EnqueueOk(MoveTail(x, slot, h.last - 1), tail, Rewound(pc))
  {
    hide IndexOk, Slot, Ring, Base, MoveTail, UndoneAreClear, ChainOk, Rewound;
    CurrentKnown(x);
    hide RingOk, Maps;
    SlotAdvance(Current(x), Current(x).last, -1);
    RewoundOk(x, tail, pc, Ring(Current(x).tail - 1, Current(x).capacity));
  }

  lemma TailKeepsInv(p: Producer, s: Shared)
    requires Inv(p, s) && (p.enqueue.StoreTail? || p.enqueue.UndoTail? || p.enqueue.UndoIndex?)
    ensures Inv(StepEnqueue(p, s, Exhausted, false, None).0, s)
  {
    hide Inv, BlocksKept, IndexOk, WindowsKept, Slot, Ring, MoveTail, EnqueueOk, HistoryOk, ContentsOk, ThreadOk, C.Inv;
    Known(p, s, 0);
    var x, h, tail, p' := p.index, Current(p.index), p.counters.tail, StepEnqueue(p, s, Exhausted, false, None).0;
    if p.enqueue.StoreTail? {
      TailMoved(x, tail, p.enqueue);
      MoveTailKeeps(x, p.enqueue.slot, |x.blockOf|);
      SameNumbers(x, p.enqueue.slot, |x.blockOf|);
    } else {
      TailRewound(x, tail, p.enqueue);
      MoveTailKeeps(x, Ring(h.tail - 1, h.capacity), h.last - 1);
      SameNumbers(x, Ring(h.tail - 1, h.capacity), h.last - 1);
    }
    NothingBuilt(s, p'.index, tail, p'.enqueue);
    hide FillingOk;
    SameBlocksKept(p, s, s);
    EnqueueFrame(p, s, p', s);
  }

  lemma SameNumbers(x: Index, slot: nat, last: int)
    ensures MoveTail(x, slot, last).blockOf == x.blockOf && MoveTail(x, slot, last).phase == x.phase
  {
  }

  lemma Requisitioned(x: Index, tail: nat, pc: EnqueuePc, pc': EnqueuePc)
    requires EnqueueOk(x, tail, pc) && pc.Requisition?
    requires pc' == UndoTail(pc.entry, None) || (pc'.Reset? && pc'.job == pc.job && pc'.entry == pc.entry)
    ensures EnqueueOk(x, tail, pc')
  {
    hide Slot, Current, Base;
  }

  lemma RequisitionKeepsInv(p: Producer, s: Shared, supply: Supply)
    requires Inv(p, s) && p.enqueue.Requisition?
    ensures var (p', s') := StepEnqueue(p, s, supply, false, None); Inv(p', s')
  {
    hide Inv, BlocksKept, IndexOk, WindowsKept, EnqueueOk, HistoryOk, ContentsOk, ThreadOk, C.Inv;
    Known(p, s, 0);
    var (p', s') := StepEnqueue(p, s, supply, false, None);
    SameIndexKept(p.index);
    SameBlocksKept(p, s, s');
    Requisitioned(p.index, p.counters.tail, p.enqueue, p'.enqueue);
    NothingBuilt(s', p'.index, p.counters.tail, p'.enqueue);
    hide FillingOk;
    EnqueueFrame(p, s, p', s');
  }

  /** Writing to the block enqueue holds touches no published block. */
  lemma HeldBlockIsApart(p: Producer, s: Shared, s': Shared, b: BlockId)
    requires Distinct(p) && b in HeldBlocks(p.enqueue)
    requires forall c: BlockId :: c != b ==> BlockAt(s', c) == BlockAt(s, c)
    ensures BlocksKept(p, s, s')
  {
    forall q, c | OwnsNumber(p.index, q, c) ensures SameBlock(s, s', c, q, |p.values|) {
      assert c != b;
    }
  }

  lemma HeldStepOk(s: Shared, s': Shared, x: Index, tail: nat, pc: EnqueuePc, pc': EnqueuePc)
    requires EnqueueOk(x, tail, pc) && (pc.Reset? || pc.Construct?)
    requires pc' == (if pc.Reset? && pc.job.One? then Construct(pc.job, pc.entry, pc.block)
                     else PublishBlock(pc.job, pc.entry, pc.block)) || pc' == UndoTail(pc.entry, Some(pc.block))
    requires BlockAt(s', pc.block).elementsCompletelyDequeued == 0 && (pc'.UndoTail? ==> pc.Construct?)
    requires pc'.PublishBlock? && pc'.job.One? ==> Contains(s', pc.block, tail, pc.job.x)
    ensures EnqueueOk(x, tail, pc') && FillingOk(s', x, tail, pc')
  {
    hide Slot, Current, BlockAt, Contains;
  }

  lemma HeldKeepsInv(p: Producer, s: Shared, fails: bool)
    requires Inv(p, s) && Distinct(p) && (p.enqueue.Reset? || p.enqueue.Construct?)
    ensures var (p', s') := StepEnqueue(p, s, Exhausted, fails, None); Inv(p', s')
  {
    hide Inv, BlocksKept, IndexOk, WindowsKept, Distinct, Offset, Ord, HistoryOk, ContentsOk, ThreadOk, C.Inv, Slot, Current;
    Known(p, s, 0);
    var (p', s') := StepEnqueue(p, s, Exhausted, fails, None);
    HeldBlockIsApart(p, s, s', p.enqueue.block);
    assert p.enqueue.Construct? ==> p.enqueue.job.One?;
    hide EnqueueOk;
    HeldStepOk(s, s', p.index, p.counters.tail, p.enqueue, p'.enqueue);
    hide FillingOk;
    SameIndexKept(p.index);
    EnqueueFrame(p, s, p', s');
  }

  /** Only the element of index i in its block changes, if any does. */
  ghost predicate OnlyElement(s: Shared, s': Shared, b: BlockId, i: nat) {
    && (forall c: BlockId :: c != b ==> BlockAt(s', c) == BlockAt(s, c))
    && BlockAt(s', b).elementsCompletelyDequeued == BlockAt(s, b).elementsCompletelyDequeued
    && (forall j, v :: Offset(j) != Offset(i) && Contains(s, b, j, v) ==> Contains(s', b, j, v))
    && (forall j :: Offset(j) != Offset(i) ==> (Occupied(s', b, j) <==> Occupied(s, b, j)))
  }

  /** The block at hand is live, so it is nobody else's, and what it holds already is at other offsets. */
  lemma BuildingLeavesOthers(p: Producer, s: Shared, s': Shared, i: nat)
    requires Inv(p, s) && Distinct(p) && p.counters.tail <= i && Ord(i) < |p.index.blockOf|
    requires OnlyElement(s, s', BlockOf(p.index, i), i)
    ensures BlocksKept(p, s, s')
    ensures forall j: nat, v ::
              p.counters.tail <= j < i && Ord(j) < |p.index.blockOf| && Contains(s, BlockOf(p.index, j), j, v) ==>
              Contains(s', BlockOf(p.index, j), j, v)
    ensures forall j: nat :: p.counters.tail <= j && j != i && Ord(j) < |p.index.blockOf| ==>
              (Occupied(s', BlockOf(p.index, j), j) <==> Occupied(s, BlockOf(p.index, j), j))
  {
    hide Inv, Ord, Offset, Contains, Distinct, BlockOf, Occupied;
    var x, b := p.index, BlockOf(p.index, i);
    UpcomingIsLive(p, s, i);
    forall q, c | OwnsNumber(x, q, c) ensures SameBlock(s, s', c, q, |p.values|) {
      if c == b {
        SameOwnedNumber(p, q, Ord(i), b);
        forall j: nat, u | j < |p.values| && Ord(j) == q && Contains(s, c, j, u) ensures Contains(s', c, j, u) {
          Known(p, s, 0);
          OrdIs(i);
          OrdIs(j);
        }
      } else {
        SameContents(s, s', c, q, |p.values|);
      }
    }
    forall j: nat, v | p.counters.tail <= j < i && Ord(j) < |x.blockOf| && Contains(s, BlockOf(x, j), j, v)
      ensures Contains(s', BlockOf(x, j), j, v)
    {
      OthersPlace(p, s, i, j);
      if BlockOf(x, j) != b { SameContains(s, s', BlockOf(x, j), j, v); }
    }
    forall j: nat | p.counters.tail <= j && j != i && Ord(j) < |x.blockOf|
      ensures Occupied(s', BlockOf(x, j), j) <==> Occupied(s, BlockOf(x, j), j)
    {
      OthersPlace(p, s, i, j);
      if BlockOf(x, j) != b { SameOccupied(s, s', BlockOf(x, j), j); }
    }
  }

  /** Another index not yet enqueued is in another block, or at another offset. */
  lemma OthersPlace(p: Producer, s: Shared, i: nat, j: nat)
    requires Inv(p, s) && Distinct(p) && p.counters.tail <= i && Ord(i) < |p.index.blockOf|
    requires p.counters.tail <= j && Ord(j) < |p.index.blockOf| && j != i
    ensures BlockOf(p.index, j) != BlockOf(p.index, i) || Offset(j) != Offset(i)
  {
    hide Inv, Ord, Offset, Distinct, BlockOf;
    OrdIs(i);
    OrdIs(j);
    if Ord(j) != Ord(i) && BlockOf(p.index, j) == BlockOf(p.index, i) {
      UpcomingIsLive(p, s, i);
      UpcomingIsLive(p, s, j);
      SameOwnedNumber(p, Ord(j), Ord(i), BlockOf(p.index, i));
    }
  }

  lemma SameOccupied(s: Shared, s': Shared, b: BlockId, i: nat)
    requires BlockAt(s', b) == BlockAt(s, b)
    ensures Occupied(s', b, i) <==> Occupied(s, b, i)
  {
  }

  lemma SameOwnedNumber(p: Producer, q: int, r: int, b: BlockId)
    requires Distinct(p) && OwnsNumber(p.index, q, b) && OwnsNumber(p.index, r, b)
    ensures q == r
  {
  }

  lemma SameContents(s: Shared, s': Shared, b: BlockId, q: int, n: nat)
    requires BlockAt(s', b) == BlockAt(s, b)
    ensures SameBlock(s, s', b, q, n)
  {
  }

  lemma SameContains(s: Shared, s': Shared, b: BlockId, i: nat, v: Element)
    requires BlockAt(s', b) == BlockAt(s, b) && Contains(s, b, i, v)
    ensures Contains(s', b, i, v)
  {
  }

  lemma WritesOne(s: Shared, b: BlockId, i: nat, v: Element)
    ensures OnlyElement(s, WriteElement(s, b, i, v), b, i) && Contains(WriteElement(s, b, i, v), b, i, v)
  {
    hide Offset;
  }

  lemma ErasesOne(s: Shared, b: BlockId, i: nat)
    ensures OnlyElement(s, EraseElement(s, b, i), b, i) && !Occupied(EraseElement(s, b, i), b, i)
  {
    hide Offset;
  }

  /** Every element to be built, or built and to be destroyed, has a block. */
  lemma HasPlace(x: Index, tail: nat, pc: EnqueuePc, j: nat)
    requires EnqueueOk(x, tail, pc)
    requires if pc.Unbuild? then j < pc.built else (pc.Fill? || pc.StoreIndex?) && j < |Elements(pc.job)|
    ensures Ord(tail + j) < |x.blockOf|
  {
    hide Current, Slot, UndoneAreClear;
  }

  lemma FillFilling(p: Producer, s: Shared)
    requires Inv(p, s) && Distinct(p) && p.enqueue.Fill?
    ensures var (p', s') := StepEnqueue(p, s, Exhausted, false, None);
      FillingOk(s', p.index, p.counters.tail, p'.enqueue) && BlocksKept(p, s, s')
  {
    hide Inv, Distinct, Ord, Offset, Contains, BlocksKept, UnbuiltOk, WriteElement, BlockOf;
    Known(p, s, 0);
    var x, tail, i, v := p.index, p.counters.tail, p.enqueue.i, p.enqueue.job;
    var (p', s') := StepEnqueue(p, s, Exhausted, false, None);
    assert i < |Elements(v)| by { hide UndoneAreClear, CountOk, Current, Slot; }
    HasPlace(x, tail, p.enqueue, i);
    hide IndexOk, C.Inv, HistoryOk, ContentsOk, ThreadOk;
    WritesOne(s, BlockOf(x, tail + i), tail + i, Elements(v)[i]);
    BuildingLeavesOthers(p, s, s', tail + i);
    hide OnlyElement, BlockOf;
    forall j | 0 <= j < |Built(p'.enqueue)| ensures Contains(s', BlockOf(x, tail + j), tail + j, Built(p'.enqueue)[j]) {
      if j < i {
        HasPlace(x, tail, p.enqueue, j);
        assert Built(p.enqueue)[j] == Built(p'.enqueue)[j];
      }
    }
  }

  lemma FillKeepsInv(p: Producer, s: Shared)
    requires Inv(p, s) && Distinct(p) && p.enqueue.Fill?
    ensures var (p', s') := StepEnqueue(p, s, Exhausted, false, None); Inv(p', s')
  {
    hide Inv, BlocksKept, IndexOk, WindowsKept, Distinct, Offset, Ord, FillingOk, HistoryOk, ContentsOk, ThreadOk, C.Inv, Slot;
    Known(p, s, 0);
    var (p', s') := StepEnqueue(p, s, Exhausted, false, None);
    FillFilling(p, s);
    SameIndexKept(p.index);
    EnqueueFrame(p, s, p', s');
  }

  lemma UnbuildFromKeepsInv(p: Producer, s: Shared, i: nat)
    requires Inv(p, s) && p.enqueue.Unbuild? && p.enqueue.i == i
    ensures Inv(UnbuildFrom(p, i, p.enqueue.built), s)
  {
    hide Inv, Unwind;
    if i < p.enqueue.built {
      assert UnbuildFrom(p, i, p.enqueue.built) == p;
    } else {
      UnwindKeepsInv(p, s);
    }
  }

  /** An element's constructor throws. */
  lemma ThrowKeepsInv(p: Producer, s: Shared)
    requires Inv(p, s) && p.enqueue.Fill?
    ensures Inv(UnbuildFrom(p, 0, p.enqueue.i), s)
  {
    hide Inv, IndexOk, Unwind, HistoryOk, ContentsOk, ThreadOk, C.Inv, Slot, BlockOf, Offset, BlockAt, UnbuildFrom, Current;
    Known(p, s, 0);
    var x, tail, built := p.index, p.counters.tail, p.enqueue.i;
    var p1 := SetEnqueue(p, Unbuild(0, built));
    forall k: nat | tail <= k < tail + built ensures Occupied(s, BlockOf(x, k), k) {
      var j := k - tail;
      assert Built(p.enqueue)[j] == Elements(p.enqueue.job)[j];
    }
    assert EnqueueOk(x, tail, Unbuild(0, built));
    hide EnqueueOk;
    PcKeepsInv(p, s, Unbuild(0, built));
    UnbuildFromKeepsInv(p1, s, 0);
    SameUnwind(p, p1);
  }

  lemma SameUnwind(p: Producer, p1: Producer)
    requires p1 == p.(enqueue := p1.enqueue)
    ensures forall i: nat, built: nat :: UnbuildFrom(p1, i, built) == UnbuildFrom(p, i, built)
  {
  }

  /** One more element is destroyed, and it was there. */
  lemma UnbuildFilling(p: Producer, s: Shared)
    requires Inv(p, s) && Distinct(p) && p.enqueue.Unbuild? && p.enqueue.i < p.enqueue.built
    ensures var x, tail, i := p.index, p.counters.tail, p.enqueue.i;
      var s' := EraseElement(s, BlockOf(x, tail + i), tail + i);
      && Occupied(s, BlockOf(x, tail + i), tail + i)
      && BlocksKept(p, s, s') && UnbuiltOk(s', x, tail, tail + i + 1, tail + p.enqueue.built)
  {
    hide Inv, Distinct, Ord, Offset, BlocksKept, EraseElement, Occupied, BlockOf;
    Known(p, s, 0);
    var x, tail, i := p.index, p.counters.tail, p.enqueue.i;
    var s' := EraseElement(s, BlockOf(x, tail + i), tail + i);
    HasPlace(x, tail, p.enqueue, i);
    ErasesOne(s, BlockOf(x, tail + i), tail + i);
    BuildingLeavesOthers(p, s, s', tail + i);
    hide OnlyElement;
    forall k: nat | tail <= k < tail + p.enqueue.built ensures Occupied(s', BlockOf(x, k), k) <==> tail + i + 1 <= k {
      HasPlace(x, tail, p.enqueue, k - tail);
    }
  }

  lemma UnbuildKeepsInv(p: Producer, s: Shared)
    requires Inv(p, s) && Distinct(p) && p.enqueue.Unbuild? && p.enqueue.i < p.enqueue.built
    ensures var (p', s') := StepEnqueue(p, s, Exhausted, false, None); Inv(p', s')
  {
    hide Inv, Distinct, Ord, Offset, BlocksKept, WindowsKept, UnbuildFrom, EraseElement, BlockOf, Slot, Current, UnbuiltOk;
    Known(p, s, 0);
    var x, tail, i, built := p.index, p.counters.tail, p.enqueue.i, p.enqueue.built;
    var s' := EraseElement(s, BlockOf(x, tail + i), tail + i);
    var p1 := SetEnqueue(p, Unbuild(i + 1, built));
    UnbuildFilling(p, s);
    hide IndexOk, C.Inv, HistoryOk, ContentsOk, ThreadOk;
    SameIndexKept(x);
    assert EnqueueOk(x, tail, Unbuild(i + 1, built));
    hide EnqueueOk;
    assert Inv(p1, s') by { EnqueueFrame(p, s, p1, s'); }
    UnbuildFromKeepsInv(p1, s', i + 1);
    SameUnwind(p, p1);
  }

  // ---- undoing ----

  lemma UndoValueKeepsInv(p: Producer, s: Shared)
    requires Inv(p, s) && p.enqueue.UndoValue?
    ensures Inv(StepEnqueue(p, s, Exhausted, false, None).0, s)
  {
    hide Inv, BlocksKept, IndexOk, WindowsKept, Slot, Unwind, C.Inv, HistoryOk, ContentsOk, ThreadOk;
    Known(p, s, 0);
    var x, e := p.index, p.enqueue.entry;
    var p1 := p.(index := SetValue(x, e, None));
    UnvalueKeeps(x, e, |x.blockOf|);
    SameBlocksKept(p, s, s);
    NothingBuilt(s, p1.index, p.counters.tail, p.enqueue);
    hide FillingOk;
    assert EnqueueOk(p1.index, p.counters.tail, p.enqueue);
    assert Inv(p1, s) by { hide EnqueueOk; EnqueueFrame(p, s, p1, s); }
    if p.enqueue.held.None? {
      assert Retractable(p1.index, p.enqueue);
      hide EnqueueOk, Retractable;
      UnwindKeepsInv(p1, s);
    } else {
      NothingBuilt(s, p1.index, p.counters.tail, UndoBlocks([p.enqueue.held.value]));
      PcKeepsInv(p1, s, UndoBlocks([p.enqueue.held.value]));
    }
  }

  /** Both assertions of the enqueuer's lookup hold: the entry it arrives at has the number's key, and points at its block. */
  lemma UndoEntryFound(p: Producer, s: Shared)
    requires Inv(p, s) && p.enqueue.UndoEntry?
    ensures var x, q := p.index, |p.index.blockOf| + p.enqueue.i;
      && q < |x.entryOf| && LookedUp(x, q) == x.entryOf[q] && p.enqueue.i < |p.enqueue.chain|
      && EntryAt(x, LookedUp(x, q)) == Entry(Base(q), Some(p.enqueue.chain[p.enqueue.i]))
  {
    hide Inv, LookedUp, Slot;
    Known(p, s, 0);
    hide IndexOk, C.Inv, HistoryOk, ContentsOk, ThreadOk, FillingOk, UndoneAreClear;
    LookedUpIsEntry(p.index, |p.index.blockOf| + p.enqueue.i);
  }

  lemma ClearedChain(x: Index, tail: nat, pc: EnqueuePc, e: EntryId)
    requires EnqueueOk(x, tail, pc) && pc.UndoEntry? && IndexOk(x)
    requires |x.blockOf| + pc.i < |x.entryOf| && e == x.entryOf[|x.blockOf| + pc.i]
    ensures EnqueueOk(SetValue(x, e, None), tail, UndoIndex(pc.chain, pc.i))
    ensures IndexOk(SetValue(x, e, None)) && WindowsKept(x, SetValue(x, e, None))
  {
    hide IndexOk, Slot, WindowsKept, EntryAt;
    UnvalueKeeps(x, e, |x.blockOf| + pc.i);
  }

  lemma UndoEntryKeepsInv(p: Producer, s: Shared)
    requires Inv(p, s) && p.enqueue.UndoEntry?
    ensures Inv(StepEnqueue(p, s, Exhausted, false, None).0, s)
  {
    hide Inv, BlocksKept, IndexOk, WindowsKept, LookedUp, EnqueueOk, HistoryOk, ContentsOk, ThreadOk, EntryAt;
    Known(p, s, 0);
    var p' := StepEnqueue(p, s, Exhausted, false, None).0;
    UndoEntryFound(p, s);
    ClearedChain(p.index, p.counters.tail, p.enqueue, p.index.entryOf[|p.index.blockOf| + p.enqueue.i]);
    SameBlocksKept(p, s, s);
    NothingBuilt(s, p'.index, p.counters.tail, p'.enqueue);
    hide FillingOk;
    EnqueueFrame(p, s, p', s);
  }

  lemma UndoBlocksKeepsInv(p: Producer, s: Shared)
    requires Inv(p, s) && p.enqueue.UndoBlocks?
    ensures var (p', s') := StepEnqueue(p, s, Exhausted, false, None); Inv(p', s')
  {
    hide Inv, BlocksKept, IndexOk, WindowsKept, Slot, C.Inv, HistoryOk, ContentsOk, ThreadOk;
    Known(p, s, 0);
    var (p', s') := StepEnqueue(p, s, Exhausted, false, None);
    SameIndexKept(p.index);
    SameBlocksKept(p, s, s');
    EnqueueFrame(p, s, p', s');
  }

  /** A new block number starts with nothing finished. */
  lemma NewNumberOk(p: Producer, s: Shared, p': Producer, e: EntryId, b: BlockId)
    requires HistoryOk(p) && C.Inv(p.counters) && p.counters.tail <= Base(|p.index.blockOf|)
    requires |p.index.phase| == |p.index.blockOf| && BlockAt(s, b).elementsCompletelyDequeued == 0
    requires p'.index == Publish(p.index, e, b) && p'.finished == p.finished && p'.work == p.work
    ensures NumberOk(p', s, |p.index.blockOf|)
  {
    hide Ord;
    HeadAtMostTail(p.counters);
    var q := |p.index.blockOf|;
    assert p.finished * Range(q) == {};
    assert Base(q) in Range(q);
  }

  lemma PublishContents(p: Producer, s: Shared, p': Producer)
    requires Inv(p, s) && p.enqueue.PublishBlock?
    requires p' == p.(enqueue := p'.enqueue, index := Publish(p.index, p.enqueue.entry, p.enqueue.block))
    ensures ContentsOk(p', s)
  {
    hide Inv, NumberOk, ElementOk, BlocksKept, IndexOk;
    Known(p, s, 0);
    OrdIs(p.counters.tail);
    hide Ord, Offset;
    SameBlocksKept(p, s, s);
    NewNumberOk(p, s, p', p.enqueue.entry, p.enqueue.block);
    hide FillingOk, HistoryOk;
    forall q | 0 <= q < |p'.index.blockOf| ensures NumberOk(p', s, q) {
      if q < |p.index.blockOf| { NumberContentsKept(p, s, p', s, q); }
    }
    forall i: nat ensures ElementOk(p', s, i) {
      if i < |p.values| { ElementContentsKept(p, s, p', s, i); } else { NotEnqueued(p', s, i); }
    }
  }

  lemma PublishedOk(x: Index, tail: nat, pc: EnqueuePc)
    requires IndexOk(x) && EnqueueOk(x, tail, pc) && pc.PublishBlock?
    ensures var x' := Publish(x, pc.entry, pc.block);
      EnqueueOk(x', tail, if pc.job.One? then StoreIndex(pc.job) else Onward(x', tail, pc.job))
  {
    hide IndexOk, Slot;
    var x' := Publish(x, pc.entry, pc.block);
    forall r | |x'.blockOf| <= r < |x.entryOf| ensures EntryAt(x', x.entryOf[r]).value.None? {
      OtherPending(x, r);
    }
    hide UndoneAreClear;
    assert UndoneAreClear(x', LoadHead(pc.job)) by { ClearFrom(x', LoadHead(pc.job)); }
    ClearFrom(x', StoreIndex(pc.job));
    ClearFrom(x', Fill(pc.job, 0));
  }

  lemma ClearFrom(x: Index, pc: EnqueuePc)
    requires Pending(pc) == 0 && forall r :: |x.blockOf| <= r < |x.entryOf| ==> EntryAt(x, x.entryOf[r]).value.None?
    ensures UndoneAreClear(x, pc)
  {
  }

  /** Numbers not in use are in the ring, with entries of their own. */
  lemma OtherPending(x: Index, r: nat)
    requires IndexOk(x) && |x.blockOf| < r < |x.entryOf|
    ensures x.entryOf[r] != x.entryOf[|x.blockOf|]
  {
    hide IndexOk;
    CurrentKnown(x);
    NumbersDiffer(x, r, |x.blockOf|);
  }

  lemma PublishedFilling(s: Shared, x: Index, tail: nat, pc: EnqueuePc)
    requires EnqueueOk(x, tail, pc) && FillingOk(s, x, tail, pc) && pc.PublishBlock?
    ensures var x' := Publish(x, pc.entry, pc.block);
      FillingOk(s, x', tail, if pc.job.One? then StoreIndex(pc.job) else Onward(x', tail, pc.job))
  {
    hide Contains, UndoneAreClear, Current, Slot, SetValue;
    var x' := Publish(x, pc.entry, pc.block);
    if pc.job.One? {
      assert Base(|x.blockOf|) == tail;
      assert BlockOf(x', tail) == pc.block;
    } else {
      assert |Elements(pc.job)| > 0;
      NothingBuilt(s, x', tail, Onward(x', tail, pc.job));
    }
  }

  lemma PublishKeepsInv(p: Producer, s: Shared)
    requires Inv(p, s) && p.enqueue.PublishBlock?
    ensures Inv(StepEnqueue(p, s, Exhausted, false, None).0, s)
  {
    hide Inv, IndexOk, HistoryOk, ContentsOk, C.Inv, Ord, Offset, Slot, FillingOk, Onward;
    Known(p, s, 0);
    var p' := StepEnqueue(p, s, Exhausted, false, None).0;
    assert |p.index.entryOf| > |p.index.blockOf| && p.enqueue.entry == p.index.entryOf[|p.index.blockOf|];
    hide EnqueueOk;
    PublishKeeps(p.index, p.enqueue.entry, p.enqueue.block);
    PublishContents(p, s, p');
    PublishedOk(p.index, p.counters.tail, p.enqueue);
    PublishedFilling(s, p.index, p.counters.tail, p.enqueue);
    assert HistoryOk(p') by { SameHistory(p, p'); }
    hide WindowsKept;
    assert forall t :: ThreadOk(p', t) by { ThreadsKept(p, s, p'); }
    hide ThreadOk;
    FromParts(p', s);
  }

  lemma FromParts(p: Producer, s: Shared)
    requires C.Inv(p.counters) && IndexOk(p.index) && EnqueueOk(p.index, p.counters.tail, p.enqueue)
    requires FillingOk(s, p.index, p.counters.tail, p.enqueue) && HistoryOk(p) && ContentsOk(p, s)
    requires forall t :: ThreadOk(p, t)
    ensures Inv(p, s)
  {
    hide IndexOk, HistoryOk, ContentsOk, C.Inv, EnqueueOk, FillingOk, ThreadOk;
  }

  /** The elements just built are in their blocks. */
  lemma BuiltElement(p: Producer, s: Shared, p': Producer, i: nat)
    requires Inv(p, s) && p.enqueue.StoreIndex? && p' == StepEnqueue(p, s, Exhausted, false, None).0
    requires |p.values| <= i < |p'.values|
    ensures ElementOk(p', s, i)
  {
    hide Inv, Contains, Ord;
    Known(p, s, 0);
    var j := i - p.counters.tail;
    HasPlace(p.index, p.counters.tail, p.enqueue, j);
    hide IndexOk, ContentsOk, ThreadOk, C.Inv, EnqueueOk;
    assert Built(p.enqueue)[j] == p'.values[i];
  }

  lemma StoreIndexContents(p: Producer, s: Shared, p': Producer)
    requires Inv(p, s) && p.enqueue.StoreIndex? && p' == StepEnqueue(p, s, Exhausted, false, None).0
    ensures ContentsOk(p', s)
  {
    hide Inv, NumberOk, ElementOk, BlocksKept, IndexOk;
    Known(p, s, 0);
    hide Ord, Offset;
    SameBlocksKept(p, s, s);
    forall q | 0 <= q < |p'.index.blockOf| ensures NumberOk(p', s, q) {
      NumberContentsKept(p, s, p', s, q);
    }
    forall i: nat ensures ElementOk(p', s, i) {
      if i < |p.values| {
        ElementContentsKept(p, s, p', s, i);
      } else if i < |p'.values| {
        BuiltElement(p, s, p', i);
      } else {
        NotEnqueued(p', s, i);
      }
    }
  }

  lemma StoreIndexKeepsInv(p: Producer, s: Shared)
    requires Inv(p, s) && p.enqueue.StoreIndex? && C.Windowed(p.counters)
    ensures Inv(StepEnqueue(p, s, Exhausted, false, None).0, s)
  {
    hide Inv, IndexOk, ContentsOk, C.Inv, C.Windowed, Slot;
    Known(p, s, 0);
    var p' := StepEnqueue(p, s, Exhausted, false, None).0;
    C.NextKeepsInv(p.counters, C.Enqueue(|Elements(p.enqueue.job)|));
    StoreIndexContents(p, s, p');
    SameIndexKept(p.index);
    hide WindowsKept;
    assert forall t :: ThreadOk(p', t) by { ThreadsKept(p, s, p'); }
    hide ThreadOk;
    forall k | 0 <= k < |p'.counters.claims| ensures IndexSettled(p', k) {
      assert IndexSettled(p, k);
    }
    FromParts(p', s);
  }

  /** Steps that add a block. */
  lemma AddingKeepsInv(p: Producer, s: Shared, supply: Supply, fails: bool, garbage: Option<BlockId>)
    requires Inv(p, s) && Distinct(p) && Adding(p.enqueue)
    ensures var (p', s') := StepEnqueue(p, s, supply, fails, garbage); Inv(p', s')
  {
    hide Inv, Distinct, Unwind, Onward, TakeEntry, MoveTail, Grown, Publish;
    match p.enqueue {
      case LoadHead(_) => LoadKeepsInv(p, s);
      case LoadKey(_) => LoadKeepsInv(p, s);
      case LoadValue(_, _, _) => LoadValueKeepsInv(p, s);
      case Grow(_) => if fails { UnwindKeepsInv(p, s); } else { GrowKeepsInv(p, s, garbage); }
      case StoreKey(_, _, _) =>
        if |p.index.entryOf| <= |p.index.blockOf| {
          Known(p, s, 0);
          StoreKeyKeepsInv(p, s);
        } else {
          StoreKeyAgainKeepsInv(p, s);
        }
      case StoreTail(_, _, _) => TailKeepsInv(p, s);
      case Requisition(_, _) => RequisitionKeepsInv(p, s, supply);
      case Reset(_, _, _) => HeldKeepsInv(p, s, fails);
      case Construct(_, _, _) => HeldKeepsInv(p, s, fails);
      case PublishBlock(_, _, _) => PublishKeepsInv(p, s);
    }
  }

  lemma EnqueueKeepsInv(p: Producer, s: Shared, supply: Supply, fails: bool, garbage: Option<BlockId>)
    requires Inv(p, s) && Distinct(p) && C.Windowed(p.counters)
    ensures var (p', s') := StepEnqueue(p, s, supply, fails, garbage); Inv(p', s')
  {
    hide Inv, Distinct, C.Windowed, Unwind, UnbuildFrom, LookedUp, MoveTail;
    if Adding(p.enqueue) {
      AddingKeepsInv(p, s, supply, fails, garbage);
    } else if p.enqueue.Fill? {
      if fails || p.enqueue.i >= |Elements(p.enqueue.job)| { ThrowKeepsInv(p, s); } else { FillKeepsInv(p, s); }
    } else if p.enqueue.StoreIndex? {
      StoreIndexKeepsInv(p, s);
    } else if p.enqueue.Unbuild? {
      if p.enqueue.i < p.enqueue.built { UnbuildKeepsInv(p, s); } else { UnbuiltKeepsInv(p, s); }
    } else if p.enqueue.UndoTail? || p.enqueue.UndoIndex? {
      TailKeepsInv(p, s);
    } else if p.enqueue.UndoValue? {
      UndoValueKeepsInv(p, s);
    } else if p.enqueue.UndoEntry? {
      UndoEntryKeepsInv(p, s);
    } else if p.enqueue.UndoBlocks? {
      UndoBlocksKeepsInv(p, s);
    }
  }

  lemma UnbuiltKeepsInv(p: Producer, s: Shared)
    requires Inv(p, s) && p.enqueue.Unbuild? && p.enqueue.i >= p.enqueue.built
    ensures var (p', s') := StepEnqueue(p, s, Exhausted, false, None); Inv(p', s')
  {
    hide Inv, Unwind;
    UnwindKeepsInv(p, s);
  }

  // ---- dequeue ----

  /** What a step of consumer t may change: its own place, its own indices, the phase of a number that is live or its own. */
  ghost predicate Consumes(p: Producer, p': Producer, t: ThreadId)
    requires t in p.work && t in p'.work
  {
    var w, w' := p.work[t], p'.work[t];
    && p' == p.(work := p.work[t := w'], index := p'.index, got := p'.got, finished := p'.finished)
    && w'.first == w.first && w'.n == w.n && From(w) <= From(w') <= Moved(w') <= End(w) && Moved(w) <= Moved(w')
    && (forall i :: i in p'.finished <==> i in p.finished || From(w) <= i < From(w'))
    && (forall i :: i in p'.got <==> i in p.got || Moved(w) <= i < Moved(w'))
    && (forall i :: i in p.got ==> p'.got[i] == p.got[i])
    && (forall i :: Moved(w) <= i < Moved(w') && i < |p.values| ==> p'.got[i] == p.values[i])
  }

  ghost predicate PhasesKept(x: Index, x': Index, t: ThreadId) {
    && x'.blockOf == x.blockOf && |x'.phase| == |x.phase| && WindowsKept(x, x')
    && (forall q :: 0 <= q < |x.phase| ==>
          x'.phase[q] == x.phase[q] || x.phase[q] == Live || x.phase[q] == Closing(t) || x.phase[q] == Cleared(t))
  }

  lemma OtherConsumer(p: Producer, s: Shared, p': Producer, t: ThreadId, u: ThreadId)
    requires Inv(p, s) && t in p.work && t in p'.work && Consumes(p, p', t) && PhasesKept(p.index, p'.index, t)
    requires u != t
    ensures ThreadOk(p', u)
  {
    hide Inv, WindowsKept, From, Moved, Ord;
    if u in p.work {
      ClaimsDisjoint(p, s, t, u);
      ClaimKnown(p, s, u);
      var w, v := p.work[t], p.work[u];
      ClaimKnown(p, s, t);
      assert w.first <= From(w) && w.first <= Moved(w);
      hide ProgressOk, StartOk, LookupOk;
      assert (v.ClearEntry? || v.GiveBack?) && Ord(v.start) < |p.index.phase| ==>
               p'.index.phase[Ord(v.start)] == p.index.phase[Ord(v.start)];
    }
    hide PlaceOk, WorkOk, PhasesKept;
    ThreadKept(p, s, p', u);
  }

  lemma OwnProgress(p: Producer, p': Producer, t: ThreadId)
    requires t in p.work && t in p'.work && Consumes(p, p', t) && ProgressOk(p, p.work[t])
    ensures ProgressOk(p', p'.work[t])
  {
    hide From, Moved;
  }

  lemma ConsumerHistory(p: Producer, s: Shared, p': Producer, t: ThreadId)
    requires Inv(p, s) && t in p.work && t in p'.work && Consumes(p, p', t)
    ensures HistoryOk(p')
  {
    hide Inv, From, Moved, PlaceOk;
    ClaimKnown(p, s, t);
    Known(p, s, t);
    OwnProgress(p, p', t);
    hide IndexOk, EnqueueOk, FillingOk, ContentsOk, ThreadOk, C.Inv;
    var w, w' := p.work[t], p'.work[t];
    forall i | i in p'.got ensures i < p'.counters.head && i < |p'.values| && p'.got[i] == p'.values[i] {
      if i !in p.got { assert i < End(w); }
    }
    forall k | 0 <= k < |p'.counters.claims| ensures IndexSettled(p', k) {
      assert IndexSettled(p, k);
    }
  }

  lemma EnqueueOkKept(x: Index, x': Index, tail: nat, pc: EnqueuePc)
    requires EnqueueOk(x, tail, pc) && x'.headers == x.headers && x'.entryOf == x.entryOf && x'.blockOf == x.blockOf
    requires forall e :: EntryAt(x', e).key == EntryAt(x, e).key
    requires forall e :: EntryAt(x', e).value == EntryAt(x, e).value || EntryAt(x', e).value == None
    requires forall r :: |x.blockOf| <= r < |x.entryOf| ==> EntryAt(x', x.entryOf[r]) == EntryAt(x, x.entryOf[r])
    ensures EnqueueOk(x', tail, pc)
  {
    hide Slot, Ord, Offset, EntryAt, Base;
  }

  lemma ConsumerFrame(p: Producer, s: Shared, p': Producer, s': Shared, t: ThreadId)
    requires Inv(p, s) && t in p.work && t in p'.work && Consumes(p, p', t) && PhasesKept(p.index, p'.index, t)
    requires IndexOk(p'.index) && PlaceOk(p'.index, t, p'.work[t])
    requires EnqueueOk(p'.index, p.counters.tail, p.enqueue) && FillingOk(s', p'.index, p.counters.tail, p.enqueue)
    requires ContentsOk(p', s')
    ensures Inv(p', s')
  {
    hide Inv, IndexOk, EnqueueOk, FillingOk, ContentsOk, ProgressOk, PlaceOk, PhasesKept;
    ClaimKnown(p, s, t);
    Known(p, s, t);
    assert ThreadOk(p', t) by { OwnProgress(p, p', t); }
    ConsumerHistory(p, s, p', t);
    hide HistoryOk, ThreadOk;
    forall u ensures ThreadOk(p', u) {
      if u != t { OtherConsumer(p, s, p', t, u); }
    }
    assert p'.counters == p.counters && p'.enqueue == p.enqueue;
    hide Consumes;
    FromParts(p', s');
  }

  /** Numbers that t's step does not concern. */
  lemma NumberFrame(p: Producer, s: Shared, p': Producer, s': Shared, t: ThreadId, q: nat)
    requires q < |p.index.blockOf| == |p.index.phase| && NumberOk(p, s, q) && t in p.work && t in p'.work
    requires p'.work == p.work[t := p'.work[t]]
    requires p'.index.blockOf == p.index.blockOf && |p'.index.phase| == |p.index.phase|
    requires p'.index.phase[q] == p.index.phase[q] && p'.finished * Range(q) == p.finished * Range(q)
    requires Holds(p.index.phase[q]) ==> BlockAt(s', p.index.blockOf[q]).elementsCompletelyDequeued
                                         == BlockAt(s, p.index.blockOf[q]).elementsCompletelyDequeued
    requires HasStart(p.work[t]) && Ord(p.work[t].start) == q ==> !p.work[t].ClearEntry? && !p.work[t].GiveBack?
    ensures NumberOk(p', s', q)
  {
    hide Range, Ord;
    assert Range(q) <= p.finished <==> p.finished * Range(q) == Range(q);
    assert Range(q) <= p'.finished <==> p'.finished * Range(q) == Range(q);
  }

  /** Steps of a consumer that change nothing but its place. */
  lemma QuietContents(p: Producer, s: Shared, p': Producer, t: ThreadId)
    requires Inv(p, s) && t in p.work && t in p'.work && p' == p.(work := p.work[t := p'.work[t]])
    requires !p.work[t].ClearEntry? && !p.work[t].GiveBack?
    ensures ContentsOk(p', s)
  {
    hide Inv, NumberOk, Range;
    Known(p, s, t);
    hide IndexOk, EnqueueOk, FillingOk, ThreadOk, HistoryOk, Contains;
    forall q | 0 <= q < |p'.index.blockOf| ensures NumberOk(p', s, q) {
      NumberFrame(p, s, p', s, t, q);
    }
    forall i: nat ensures ElementOk(p', s, i) {
      assert ElementOk(p, s, i);
    }
  }

  lemma QuietKeepsInv(p: Producer, s: Shared, p': Producer, t: ThreadId)
    requires Inv(p, s) && t in p.work && t in p'.work && p' == p.(work := p.work[t := p'.work[t]])
    requires !p.work[t].ClearEntry? && !p.work[t].GiveBack?
    requires p'.work[t].first == p.work[t].first && p'.work[t].n == p.work[t].n
    requires From(p'.work[t]) == From(p.work[t]) && Moved(p'.work[t]) == Moved(p.work[t])
    requires PlaceOk(p.index, t, p'.work[t])
    ensures Inv(p', s)
  {
    hide Inv, IndexOk, EnqueueOk, FillingOk, ContentsOk, PlaceOk;
    Known(p, s, t);
    ClaimKnown(p, s, t);
    SameIndexKept(p.index);
    QuietContents(p, s, p', t);
    hide From, Moved;
    ConsumerFrame(p, s, p', s, t);
  }

  /** The newest header has an entry for every number ahead of a consumer. */
  lemma HeaderCovers(p: Producer, s: Shared, t: ThreadId)
    requires Inv(p, s) && t in p.work && p.work[t].ReadHeader?
    ensures Covers(Current(p.index), Ord(p.work[t].first), End(p.work[t])) && |p.index.headers| > 0
  {
    hide Inv, ProgressOk;
    Known(p, s, t);
    AheadIsLive(p, s, t);
    CurrentKnown(p.index);
    hide Ord, Slot, EntriesDiffer, WindowOk, SpareOk, EnqueueOk, ContentsOk, HistoryOk, FillingOk, Maps;
  }

  /** The number whose slot a header's tail is in is at or past the end of every claim looked up through it. */
  lemma TailIsAhead(p: Producer, s: Shared, t: ThreadId)
    requires Inv(p, s) && t in p.work && p.work[t].ReadTail?
    ensures p.work[t].header < |p.index.headers|
    ensures var w := p.work[t]; var header := p.index.headers[w.header];
      InWindow(header, header.last) && header.tail == Slot(header, header.last) && Base(header.last + 1) >= End(w)
  {
    hide Inv, ProgressOk, Ord;
    ClaimKnown(p, s, t);
    Known(p, s, t);
    var w := p.work[t];
    HeaderKnown(p.index, w.header);
    CurrentKnown(p.index);
    hide IndexOk, RingOk, Maps, ContentsOk, HistoryOk, FillingOk, Slot;
    var last := End(w) - 1;
    OrdIs(last);
    OrdIs(w.first);
    OrdGrows(w.first, last);
    BlocksReachTail(p.index, p.counters.tail, p.enqueue, last);
    assert InWindow(p.index.headers[w.header], Ord(last)) && InWindow(p.index.headers[w.header], Ord(w.first));
  }

  lemma ReadHeaderKeepsInv(p: Producer, s: Shared, t: ThreadId)
    requires Inv(p, s) && t in p.work && p.work[t].ReadHeader?
    ensures Inv(StepWork(p, s, t, p.work[t]).0, s)
  {
    hide Inv, Covers;
    HeaderCovers(p, s, t);
    hide Ord;
    QuietKeepsInv(p, s, StepWork(p, s, t, p.work[t]).0, t);
  }

  lemma ReadTailKeepsInv(p: Producer, s: Shared, t: ThreadId)
    requires Inv(p, s) && t in p.work && p.work[t].ReadTail?
    ensures Inv(StepWork(p, s, t, p.work[t]).0, s)
  {
    hide Inv, Covers, Ord, Slot, InWindow, ProgressOk;
    TailIsAhead(p, s, t);
    ClaimKnown(p, s, t);
    QuietKeepsInv(p, s, StepWork(p, s, t, p.work[t]).0, t);
  }

  lemma ReadingKnown(p: Producer, s: Shared, t: ThreadId)
    requires Inv(p, s) && t in p.work && p.work[t].ReadKey?
    ensures var w := p.work[t]; w.n > 0 && LookupOk(p.index, w) && w.first < p.counters.tail && w.first !in p.finished
  {
    hide Inv, LookupOk;
    ClaimKnown(p, s, t);
    NotFinished(p, p.work[t], p.work[t].first);
  }

  lemma LookupCovers(x: Index, w: Work)
    requires w.ReadKey? && LookupOk(x, w) && w.n > 0
    ensures w.header < |x.headers| && InWindow(x.headers[w.header], Ord(w.first)) && InWindow(x.headers[w.header], w.number)
    ensures Ord(w.first) <= w.number && w.tail == Slot(x.headers[w.header], w.number)
  {
    OrdIs(w.first);
    hide Ord, Slot, InWindow;
  }

  /** Where the lookup of a claim's first index arrives. */
  lemma LookupArrives(p: Producer, s: Shared, t: ThreadId)
    requires Inv(p, s) && t in p.work && p.work[t].ReadKey?
    ensures var w := p.work[t];
      && w.header < |p.index.headers|
      && var header := p.index.headers[w.header];
      var tailBase := EntryAt(p.index, IndexAt(header, w.tail)).key;
      var slot := Ring(w.tail + (Base(Ord(w.first)) - tailBase) / BLOCK_SIZE, header.capacity);
      && tailBase == Base(w.number) && tailBase != INVALID_BLOCK_BASE && slot == Slot(header, Ord(w.first))
      && Ord(w.first) < |p.index.blockOf|
      && EntryAt(p.index, IndexAt(header, slot)) == Entry(Base(Ord(w.first)), Some(p.index.blockOf[Ord(w.first)]))
  {
    hide Inv, Ord, Slot, Ring, EntryAt, IndexAt, IndexOk, EnqueueOk, FillingOk, ContentsOk, HistoryOk, ThreadOk, C.Inv, LookupOk;
    var w := p.work[t];
    ReadingKnown(p, s, t);
    Known(p, s, t);
    LookupCovers(p.index, w);
    UnfinishedIsLive(p, s, w.first);
    LookupFindsBlock(p.index, w.header, w.number, Ord(w.first));
  }

  lemma ReadKeyKeepsInv(p: Producer, s: Shared, t: ThreadId)
    requires Inv(p, s) && t in p.work && p.work[t].ReadKey?
    ensures Inv(StepWork(p, s, t, p.work[t]).0, s)
  {
    hide Inv, Ord, Slot, Ring, EntryAt, IndexAt, InWindow, Covers;
    LookupArrives(p, s, t);
    ClaimKnown(p, s, t);
    hide ProgressOk;
    QuietKeepsInv(p, s, StepWork(p, s, t, p.work[t]).0, t);
  }

  /** In every block of its claim, the slot a consumer has come to is the one of the block it wants. */
  lemma SlotIsRight(p: Producer, s: Shared, t: ThreadId)
    requires Inv(p, s) && t in p.work && HasStart(p.work[t]) && !p.work[t].GiveBack?
    ensures var w, q := p.work[t], Ord(p.work[t].start);
      && w.header < |p.index.headers| && q < |p.index.blockOf| == |p.index.phase| <= |p.index.entryOf|
      && Holds(p.index.phase[q])
      && IndexAt(p.index.headers[w.header], w.slot) == p.index.entryOf[q]
      && EntryAt(p.index, p.index.entryOf[q]) == Entry(Base(q), Some(p.index.blockOf[q]))
  {
    hide Inv;
    ClaimKnown(p, s, t);
    Known(p, s, t);
    AheadIsLive(p, s, t);
    var w, q := p.work[t], Ord(p.work[t].start);
    OrdIs(w.start);
    hide Ord, Slot, ProgressOk;
    assert NeedFrom(w) <= q && Base(q) < End(w);
    assert q < |p.index.phase| && Holds(p.index.phase[q]);
    CurrentKnown(p.index);
    HeaderKnown(p.index, w.header);
    HoldsInWindow(p.index, q);
    NumberKnown(p.index, q);
    hide IndexOk, RingOk;
    assert InWindow(p.index.headers[w.header], q);
  }

  lemma ReadBlockKeepsInv(p: Producer, s: Shared, t: ThreadId)
    requires Inv(p, s) && t in p.work && p.work[t].ReadBlock?
    ensures Inv(StepWork(p, s, t, p.work[t]).0, s)
  {
    hide Inv, Ord, Slot, EntryAt, IndexAt, Covers;
    SlotIsRight(p, s, t);
    ClaimKnown(p, s, t);
    OrdIs(p.work[t].start);
    hide ProgressOk;
    QuietKeepsInv(p, s, StepWork(p, s, t, p.work[t]).0, t);
  }

  /** The element at hand is in the block at hand: what was enqueued at that index. */
  lemma ElementAtHand(p: Producer, s: Shared, t: ThreadId)
    requires Inv(p, s) && t in p.work && p.work[t].Move?
    ensures var w := p.work[t];
      w.i !in p.got && w.i < |p.values| && w.i < Stop(w) <= End(w) && Contains(s, w.block, w.i, p.values[w.i])
  {
    hide Inv, ContentsOk, IndexOk, Contains;
    ClaimKnown(p, s, t);
    Known(p, s, t);
    var w := p.work[t];
    OrdIs(w.start);
    OrdOf(w.i, Ord(w.start));
    hide Ord;
    assert ElementOk(p, s, w.i) by { ElementKnown(p, s, w.i); }
  }

  lemma ElementKnown(p: Producer, s: Shared, i: nat)
    requires ContentsOk(p, s)
    ensures ElementOk(p, s, i)
  {
  }

  lemma MoveContents(p: Producer, s: Shared, p': Producer, t: ThreadId)
    requires Inv(p, s) && t in p.work && p.work[t].Move? && t in p'.work
    requires p' == p.(work := p.work[t := p'.work[t]], got := p'.got)
    requires forall i :: i in p.got ==> i in p'.got
    ensures ContentsOk(p', s)
  {
    hide Inv, NumberOk, Range;
    Known(p, s, t);
    hide IndexOk, EnqueueOk, FillingOk, ThreadOk, HistoryOk, Contains;
    forall q | 0 <= q < |p'.index.blockOf| ensures NumberOk(p', s, q) {
      NumberFrame(p, s, p', s, t, q);
    }
    forall i: nat ensures ElementOk(p', s, i) {
      assert ElementOk(p, s, i);
    }
  }

  lemma MoveKeepsInv(p: Producer, s: Shared, t: ThreadId)
    requires Inv(p, s) && t in p.work && p.work[t].Move?
    ensures Inv(StepWork(p, s, t, p.work[t]).0, s)
  {
    hide Inv, IndexOk, EnqueueOk, FillingOk, ContentsOk, Ord, Covers, Slot;
    Known(p, s, t);
    ClaimKnown(p, s, t);
    hide HistoryOk, ProgressOk;
    ElementAtHand(p, s, t);
    SameIndexKept(p.index);
    hide WindowsKept;
    var p' := StepWork(p, s, t, p.work[t]).0;
    MoveContents(p, s, p', t);
    ConsumerFrame(p, s, p', s, t);
  }

  // ---- counting a block empty, and retiring it ----

  lemma {:induction false} IndicesSize(lo: nat, hi: nat)
    requires lo <= hi
    ensures |Indices(lo, hi)| == hi - lo
    decreases hi - lo
  {
    if lo < hi {
      IndicesSize(lo, hi - 1);
      assert Indices(lo, hi) == Indices(lo, hi - 1) + {hi - 1};
    } else {
      assert Indices(lo, hi) == {};
    }
  }

  /** Finishing indices lo .. hi - 1 of number q adds that many to its count; the count is full when all are finished. */
  lemma CountFinished(finished: set<nat>, q: nat, lo: nat, hi: nat)
    requires Base(q) <= lo <= hi <= Base(q + 1) && Indices(lo, hi) !! finished
    ensures |(finished + Indices(lo, hi)) * Range(q)| == |finished * Range(q)| + (hi - lo) <= BLOCK_SIZE
    ensures |(finished + Indices(lo, hi)) * Range(q)| == BLOCK_SIZE <==> Range(q) <= finished + Indices(lo, hi)
  {
    var after := finished + Indices(lo, hi);
    assert Indices(lo, hi) <= Range(q);
    IndicesSize(lo, hi);
    IndicesSize(Base(q), Base(q + 1));
    hide Indices;
    assert after * Range(q) == finished * Range(q) + Indices(lo, hi);
    SubsetSize(after * Range(q), Range(q));
    if Range(q) <= after {
      assert after * Range(q) == Range(q);
    } else {
      var i :| i in Range(q) && i !in after;
      SubsetSize(after * Range(q), Range(q) - {i});
    }
  }

  lemma CountElsewhere(finished: set<nat>, q: nat, r: nat, lo: nat, hi: nat)
    requires Base(q) <= lo <= hi <= Base(q + 1) && r != q
    ensures (finished + Indices(lo, hi)) * Range(r) == finished * Range(r)
  {
    assert Indices(lo, hi) !! Range(r);
  }

  lemma NextBlockOk(x: Index, t: ThreadId, w: Work)
    requires HasStart(w) && StartOk(x, w) && x.headers[w.header].capacity > 0
    ensures var w' := NextBlock(x, w);
      && PlaceOk(x, t, w') && From(w') == Moved(w') == Stop(w) <= End(w) && w'.first == w.first && w'.n == w.n
  {
    OrdIs(w.start);
    SlotAdvance(x.headers[w.header], Ord(w.start), 1);
    OrdOf(Base(Ord(w.start) + 1), Ord(w.start) + 1);
    hide Ord, Slot, Ring;
  }

  /** What SetEmpty is about to count: part of the block at hand, none of it counted before. */
  lemma EmptyingKnown(p: Producer, s: Shared, t: ThreadId)
    requires Inv(p, s) && t in p.work && p.work[t].SetEmpty?
    ensures var w, q := p.work[t], Ord(p.work[t].start);
      && Base(q) <= w.start < Stop(w) <= Base(q + 1) && Stop(w) <= End(w) && Indices(w.start, Stop(w)) !! p.finished
      && q < |p.index.blockOf| == |p.index.phase| && p.index.phase[q].Live? && w.block == p.index.blockOf[q]
      && BlockAt(s, w.block).elementsCompletelyDequeued == |p.finished * Range(q)|
      && w.header < |p.index.headers| && p.index.headers[w.header].capacity > 0
  {
    hide Inv, IndexOk, EnqueueOk, FillingOk, HistoryOk, Range;
    ClaimKnown(p, s, t);
    Known(p, s, t);
    var w := p.work[t];
    OrdIs(w.start);
    hide Ord, Slot;
    NotFinished(p, w, w.start);
    UnfinishedIsLive(p, s, w.start);
    HeaderKnown(p.index, w.header);
    hide Maps;
    assert NumberOk(p, s, Ord(w.start));
    forall i | i in Indices(w.start, Stop(w)) ensures i !in p.finished {
      NotFinished(p, w, i);
    }
  }

  /** The block being counted: full exactly when its last index is finished, and then this consumer's to retire. */
  lemma SetEmptyOwnNumber(p: Producer, s: Shared, t: ThreadId)
    requires Inv(p, s) && t in p.work && p.work[t].SetEmpty?
    ensures var (p', s'), q := StepWork(p, s, t, p.work[t]), Ord(p.work[t].start);
      && q < |p'.index.blockOf| == |p'.index.phase| && NumberOk(p', s', q)
  {
    hide Inv, Range, Indices, Slot, Ord, NextBlock;
    EmptyingKnown(p, s, t);
    var w := p.work[t];
    CountFinished(p.finished, Ord(w.start), w.start, Stop(w));
    hide Stop, Base;
  }

  lemma SetEmptyNumber(p: Producer, s: Shared, t: ThreadId, q: nat)
    requires Inv(p, s) && Distinct(p) && t in p.work && p.work[t].SetEmpty? && q < |p.index.blockOf| == |p.index.phase|
    requires q != Ord(p.work[t].start)
    ensures var (p', s') := StepWork(p, s, t, p.work[t]);
      && |p'.index.blockOf| == |p'.index.phase| == |p.index.blockOf| && NumberOk(p', s', q)
  {
    hide Inv, Distinct, Range, Indices, Slot, Ord, NextBlock;
    var w := p.work[t];
    var (p', s') := StepWork(p, s, t, w);
    EmptyingKnown(p, s, t);
    Known(p, s, t);
    hide IndexOk, EnqueueOk, FillingOk, HistoryOk, ThreadOk;
    var r := Ord(w.start);
    assert NumberOk(p, s, q);
    hide ContentsOk, NumberOk;
    CountElsewhere(p.finished, r, q, w.start, Stop(w));
    assert OwnsNumber(p.index, r, w.block);
    OtherNumbersBlock(p, r, q, w.block);
    hide Stop, Base;
    NumberFrame(p, s, p', s', t, q);
  }

  lemma OtherNumbersBlock(p: Producer, r: nat, q: nat, b: BlockId)
    requires Distinct(p) && OwnsNumber(p.index, r, b) && q != r && q < |p.index.blockOf| == |p.index.phase|
    ensures Holds(p.index.phase[q]) ==> p.index.blockOf[q] != b
  {
    if Holds(p.index.phase[q]) {
      assert OwnsNumber(p.index, q, p.index.blockOf[q]);
    }
  }

  lemma SetEmptyContents(p: Producer, s: Shared, t: ThreadId)
    requires Inv(p, s) && Distinct(p) && t in p.work && p.work[t].SetEmpty?
    ensures var (p', s') := StepWork(p, s, t, p.work[t]); ContentsOk(p', s')
  {
    hide Inv, Distinct, NumberOk, Range, Ord;
    Known(p, s, t);
    hide IndexOk, EnqueueOk, FillingOk, ThreadOk, HistoryOk;
    var (p', s') := StepWork(p, s, t, p.work[t]);
    assert |p'.index.blockOf| == |p'.index.phase| == |p.index.blockOf|;
    forall q | 0 <= q < |p'.index.blockOf| ensures NumberOk(p', s', q) {
      if q == Ord(p.work[t].start) { SetEmptyOwnNumber(p, s, t); } else { SetEmptyNumber(p, s, t, q); }
    }
    forall i: nat ensures ElementOk(p', s', i) {
      assert ElementOk(p, s, i);
    }
  }

  /** Counting in a published block does not disturb what enqueue is filling. */
  lemma FillingKept(p: Producer, s: Shared, q: nat, n: nat)
    requires FillingOk(s, p.index, p.counters.tail, p.enqueue) && Distinct(p)
    requires q < |p.index.blockOf| == |p.index.phase| && p.index.phase[q].Live?
    ensures FillingOk(SetCount(s, p.index.blockOf[q], n), p.index, p.counters.tail, p.enqueue)
  {
    hide Offset;
    assert OwnsNumber(p.index, q, p.index.blockOf[q]);
    assert p.index.blockOf[q] !in HeldBlocks(p.enqueue);
  }

  lemma SetEmptyIndex(p: Producer, s: Shared, t: ThreadId)
    requires Inv(p, s) && t in p.work && p.work[t].SetEmpty?
    ensures var (p', s') := StepWork(p, s, t, p.work[t]);
      && IndexOk(p'.index) && PhasesKept(p.index, p'.index, t)
      && EnqueueOk(p'.index, p.counters.tail, p.enqueue)
  {
    hide Inv, IndexOk, EnqueueOk, WindowsKept, Ord, NextBlock, BlockAt;
    var p' := StepWork(p, s, t, p.work[t]).0;
    EmptyingKnown(p, s, t);
    Known(p, s, t);
    hide ThreadOk, HistoryOk, ContentsOk, FillingOk;
    SameIndexKept(p.index);
    ClosingKeeps(p.index, Ord(p.work[t].start), t);
    EnqueueOkKept(p.index, p'.index, p.counters.tail, p.enqueue);
  }

  lemma IndicesAre(lo: nat, hi: nat)
    ensures forall i :: i in Indices(lo, hi) <==> lo <= i < hi
  {
  }

  lemma SetEmptyConsumes(p: Producer, s: Shared, t: ThreadId)
    requires Inv(p, s) && t in p.work && p.work[t].SetEmpty?
    ensures var p' := StepWork(p, s, t, p.work[t]).0; t in p'.work && Consumes(p, p', t)
  {
    hide Inv, StartOk, Slot, Ord, BlockAt, Indices, Range, NextBlock, PlaceOk;
    var w := p.work[t];
    EmptyingKnown(p, s, t);
    ClaimKnown(p, s, t);
    assert StartOk(p.index, w) by { PlaceIs(p.index, t, w); }
    hide ProgressOk;
    NextBlockOk(p.index, t, w);
    IndicesAre(w.start, Stop(w));
    hide Stop;
  }

  lemma PlaceIs(x: Index, t: ThreadId, w: Work)
    requires PlaceOk(x, t, w) && HasStart(w)
    ensures StartOk(x, w)
  {
  }

  lemma SetEmptyPlace(p: Producer, s: Shared, t: ThreadId)
    requires Inv(p, s) && t in p.work && p.work[t].SetEmpty?
    ensures var p' := StepWork(p, s, t, p.work[t]).0; t in p'.work && PlaceOk(p'.index, t, p'.work[t]) && Consumes(p, p', t)
  {
    hide Inv, Covers, Slot, Ord, BlockAt, Indices, Range, NextBlock, Consumes;
    var w := p.work[t];
    SetEmptyConsumes(p, s, t);
    ClaimKnown(p, s, t);
    hide ProgressOk;
    EmptyingKnown(p, s, t);
    NextBlockOk(p.index, t, w);
  }

  lemma SetEmptyFilling(p: Producer, s: Shared, t: ThreadId)
    requires Inv(p, s) && Distinct(p) && t in p.work && p.work[t].SetEmpty?
    ensures var (p', s') := StepWork(p, s, t, p.work[t]); FillingOk(s', p'.index, p.counters.tail, p.enqueue)
  {
    hide Inv, FillingOk, Distinct, BlockAt, Ord, NextBlock, Indices, Range, Base, Slot, SetCount, StepWork, Stop;
    var w := p.work[t];
    var n := BlockAt(s, w.block).elementsCompletelyDequeued + (Stop(w) - w.start);
    assert w.start <= Stop(w) && FillingOk(SetCount(s, w.block, n), p.index, p.counters.tail, p.enqueue) by {
      EmptyingKnown(p, s, t);
      Known(p, s, t);
      FillingKept(p, s, Ord(w.start), n);
    }
    SetEmptyShared(p, s, t);
    var (p', s') := StepWork(p, s, t, w);
    SameFilling(s', p.index, p'.index, p.counters.tail, p.enqueue);
  }

  lemma SetEmptyShared(p: Producer, s: Shared, t: ThreadId)
    requires t in p.work && p.work[t].SetEmpty? && p.work[t].start <= Stop(p.work[t])
    ensures var (p', s') := StepWork(p, s, t, p.work[t]); var w := p.work[t];
      && p'.index.blockOf == p.index.blockOf
      && s' == SetCount(s, w.block, BlockAt(s, w.block).elementsCompletelyDequeued + (Stop(w) - w.start))
  {
    hide BlockAt, Ord, NextBlock, Indices, Base, SetCount, Stop;
  }

  lemma SetEmptyKeepsInv(p: Producer, s: Shared, t: ThreadId)
    requires Inv(p, s) && Distinct(p) && t in p.work && p.work[t].SetEmpty?
    ensures var (p', s') := StepWork(p, s, t, p.work[t]); Inv(p', s')
  {
    hide Inv, IndexOk, EnqueueOk, FillingOk, ContentsOk, Distinct, StepWork, PlaceOk, PhasesKept, Consumes;
    var (p', s') := StepWork(p, s, t, p.work[t]);
    SetEmptyContents(p, s, t);
    SetEmptyIndex(p, s, t);
    SetEmptyPlace(p, s, t);
    SetEmptyFilling(p, s, t);
    ConsumerFrame(p, s, p', s', t);
  }

  lemma SameFilling(s: Shared, x: Index, x': Index, tail: nat, pc: EnqueuePc)
    requires FillingOk(s, x, tail, pc) && x'.blockOf == x.blockOf
    ensures FillingOk(s, x', tail, pc)
  {
    assert forall k :: BlockOf(x', k) == BlockOf(x, k);
    hide Contains, Occupied, BlockAt, BlockOf;
  }

  /** The consumer that found its block empty still has it, in the phase the invariant says. */
  lemma RetiringKnown(p: Producer, s: Shared, t: ThreadId)
    requires Inv(p, s) && t in p.work && (p.work[t].ClearEntry? || p.work[t].GiveBack?)
    ensures var w, q := p.work[t], Ord(p.work[t].start);
      && q < |p.index.blockOf| == |p.index.phase| && w.block == p.index.blockOf[q]
      && p.index.phase[q] == (if w.ClearEntry? then Closing(t) else Cleared(t))
      && Range(q) <= p.finished && NumberOk(p, s, q)
      && StartOk(p.index, w) && p.index.headers[w.header].capacity > 0
  {
    hide Inv, IndexOk, EnqueueOk, FillingOk, HistoryOk, Range, Slot, Covers, Ord;
    ClaimKnown(p, s, t);
    Known(p, s, t);
    HeaderKnown(p.index, p.work[t].header);
    hide Maps;
    assert NumberOk(p, s, Ord(p.work[t].start));
  }

  /** Retiring a block touches nothing but its number's phase and its entry. */
  lemma RetiringShape(p: Producer, s: Shared, t: ThreadId)
    requires t in p.work && (p.work[t].ClearEntry? || p.work[t].GiveBack?)
    ensures var (p', s'), q := StepWork(p, s, t, p.work[t]), Ord(p.work[t].start);
      && s'.blocks == s.blocks && t in p'.work && p'.work == p.work[t := p'.work[t]]
      && p' == p.(work := p'.work, index := p'.index)
      && p'.index.blockOf == p.index.blockOf && |p'.index.phase| == |p.index.phase|
      && (forall r :: 0 <= r < |p.index.phase| && r != q ==> p'.index.phase[r] == p.index.phase[r])
      && (q < |p.index.phase| ==>
            if p.work[t].ClearEntry? then p'.index.phase[q] == Cleared(t) && p'.work[t].GiveBack? && Ord(p'.work[t].start) == q
            else p'.index.phase[q] == Returned)
  {
    hide Ord, NextBlock, Slot;
  }

  lemma RetiringNumber(p: Producer, s: Shared, t: ThreadId, q: nat)
    requires Inv(p, s) && t in p.work && (p.work[t].ClearEntry? || p.work[t].GiveBack?) && q < |p.index.blockOf|
    ensures var (p', s') := StepWork(p, s, t, p.work[t]);
      |p'.index.blockOf| == |p'.index.phase| == |p.index.blockOf| && NumberOk(p', s', q)
  {
    hide Inv, Range, Ord, StepWork, StartOk;
    RetiringShape(p, s, t);
    RetiringKnown(p, s, t);
    if q != Ord(p.work[t].start) {
      assert NumberOk(p, s, q) by {
        Known(p, s, t);
        hide IndexOk, EnqueueOk, FillingOk, ThreadOk, HistoryOk, NumberOk, ElementOk;
      }
      var (p', s') := StepWork(p, s, t, p.work[t]);
      hide NumberOk;
      NumberFrame(p, s, p', s', t, q);
    }
  }

  lemma RetiringContents(p: Producer, s: Shared, t: ThreadId)
    requires Inv(p, s) && t in p.work && (p.work[t].ClearEntry? || p.work[t].GiveBack?)
    ensures var (p', s') := StepWork(p, s, t, p.work[t]); ContentsOk(p', s')
  {
    hide Inv, Ord, StepWork, NumberOk;
    Known(p, s, t);
    RetiringShape(p, s, t);
    hide IndexOk, EnqueueOk, FillingOk, ThreadOk, HistoryOk, Contains;
    var (p', s') := StepWork(p, s, t, p.work[t]);
    forall q | 0 <= q < |p'.index.blockOf| ensures NumberOk(p', s', q) {
      RetiringNumber(p, s, t, q);
    }
    forall i: nat ensures ElementOk(p', s', i) {
      assert ElementOk(p, s, i);
      SameBlocksContain(s, s');
    }
  }

  lemma SameBlocksContain(s: Shared, s': Shared)
    requires s'.blocks == s.blocks
    ensures forall b, i, v :: Contains(s', b, i, v) <==> Contains(s, b, i, v)
  {
  }

  lemma ClearEntryIndex(p: Producer, s: Shared, t: ThreadId)
    requires Inv(p, s) && t in p.work && p.work[t].ClearEntry?
    ensures var p' := StepWork(p, s, t, p.work[t]).0;
      IndexOk(p'.index) && PhasesKept(p.index, p'.index, t) && EnqueueOk(p'.index, p.counters.tail, p.enqueue)
  {
    hide Inv, IndexOk, EnqueueOk, WindowsKept, Ord, Slot;
    var w, q := p.work[t], Ord(p.work[t].start);
    RetiringKnown(p, s, t);
    SlotIsRight(p, s, t);
    Known(p, s, t);
    hide ThreadOk, HistoryOk, ContentsOk, FillingOk, NumberOk, StartOk;
    ClearedKeeps(p.index, q, t);
    EnqueueOkKept(p.index, StepWork(p, s, t, w).0.index, p.counters.tail, p.enqueue);
  }

  lemma ClearEntryPlace(p: Producer, s: Shared, t: ThreadId)
    requires Inv(p, s) && t in p.work && p.work[t].ClearEntry?
    ensures var p' := StepWork(p, s, t, p.work[t]).0; t in p'.work && PlaceOk(p'.index, t, p'.work[t]) && Consumes(p, p', t)
  {
    hide Inv, Slot, Ord, Range, NumberOk;
    RetiringKnown(p, s, t);
    OrdIs(p.work[t].start);
  }

  lemma ClearEntryKeepsInv(p: Producer, s: Shared, t: ThreadId)
    requires Inv(p, s) && t in p.work && p.work[t].ClearEntry?
    ensures Inv(StepWork(p, s, t, p.work[t]).0, s)
  {
    hide Inv, IndexOk, EnqueueOk, FillingOk, ContentsOk, PhasesKept, Slot, Ord, PlaceOk, Consumes;
    var p' := StepWork(p, s, t, p.work[t]).0;
    RetiringContents(p, s, t);
    ClearEntryIndex(p, s, t);
    ClearEntryPlace(p, s, t);
    Known(p, s, t);
    SameFilling(s, p.index, p'.index, p.counters.tail, p.enqueue);
    hide HistoryOk, ThreadOk;
    ConsumerFrame(p, s, p', s, t);
  }

  lemma GiveBackPlace(p: Producer, s: Shared, t: ThreadId)
    requires Inv(p, s) && t in p.work && p.work[t].GiveBack?
    ensures var p' := StepWork(p, s, t, p.work[t]).0;
      && t in p'.work && PlaceOk(p'.index, t, p'.work[t]) && Consumes(p, p', t) && PhasesKept(p.index, p'.index, t)
      && IndexOk(p'.index) && EnqueueOk(p'.index, p.counters.tail, p.enqueue)
  {
    hide Inv, IndexOk, EnqueueOk, WindowsKept, Slot, Ord, Covers;
    var w := p.work[t];
    var p' := StepWork(p, s, t, w).0;
    RetiringKnown(p, s, t);
    Known(p, s, t);
    hide HistoryOk, ContentsOk, FillingOk, NumberOk, ThreadOk;
    ReturnedKeeps(p.index, Ord(w.start));
    EnqueueOkKept(p.index, p'.index, p.counters.tail, p.enqueue);
    NextBlockOk(p.index, t, w);
    hide Ring, NextBlock;
  }

  lemma GiveBackKeepsInv(p: Producer, s: Shared, t: ThreadId)
    requires Inv(p, s) && t in p.work && p.work[t].GiveBack?
    ensures var (p', s') := StepWork(p, s, t, p.work[t]); Inv(p', s')
  {
    hide Inv, IndexOk, EnqueueOk, FillingOk, ContentsOk, PhasesKept, Slot, Ord, PlaceOk, Consumes, NextBlock;
    var (p', s') := StepWork(p, s, t, p.work[t]);
    RetiringContents(p, s, t);
    GiveBackPlace(p, s, t);
    Known(p, s, t);
    hide HistoryOk, ThreadOk;
    assert FillingOk(s', p'.index, p.counters.tail, p.enqueue) by {
      BlocksAlone(s, s', p.index, p.counters.tail, p.enqueue);
      SameFilling(s', p.index, p'.index, p.counters.tail, p.enqueue);
    }
    ConsumerFrame(p, s, p', s', t);
  }

  lemma BlocksAlone(s: Shared, s': Shared, x: Index, tail: nat, pc: EnqueuePc)
    requires FillingOk(s, x, tail, pc) && s'.blocks == s.blocks
    ensures FillingOk(s', x, tail, pc)
  {
  }

  lemma WorkKeepsInv(p: Producer, s: Shared, t: ThreadId)
    requires Inv(p, s) && Distinct(p) && t in p.work
    ensures var (p', s') := StepWork(p, s, t, p.work[t]); Inv(p', s')
  {
    hide Inv, Distinct;
    match p.work[t] {
      case ReadHeader(_, _) => ReadHeaderKeepsInv(p, s, t);
      case ReadTail(_, _, _) => ReadTailKeepsInv(p, s, t);
      case ReadKey(_, _, _, _, _) => ReadKeyKeepsInv(p, s, t);
      case ReadBlock(_, _, _, _, _) => ReadBlockKeepsInv(p, s, t);
      case Move(_, _, _, _, _, _, _) => MoveKeepsInv(p, s, t);
      case SetEmpty(_, _, _, _, _, _) => SetEmptyKeepsInv(p, s, t);
      case ClearEntry(_, _, _, _, _, _) => ClearEntryKeepsInv(p, s, t);
      case GiveBack(_, _, _, _, _, _) => GiveBackKeepsInv(p, s, t);
      case Done(_, _) => assert p.work[t := p.work[t]] == p.work;
    }
  }

  // ---- at the counters ----

  function EventOf(a: Action): C.Event
    requires a.BeginDequeue? || a.AdvanceDequeue? || a.EndDequeue?
  {
    match a
    case BeginDequeue(t, max) => C.Begin(t, max)
    case AdvanceDequeue(t) => C.Advance(t)
    case EndDequeue(t) => C.Release(t)
  }

  /** A step at the counters moves one thread, and either claims the next few indices for it or claims nothing. */
  lemma CountersStep(c: C.State, a: Action)
    requires C.Inv(c) && (a.BeginDequeue? || a.AdvanceDequeue? || a.EndDequeue?)
    requires TicketOk(C.PcOf(c, a.t)) || (a.EndDequeue? && C.PcOf(c, a.t).Holding?)
    requires a.BeginDequeue? ==> a.max > 0
    ensures var c', pc := C.Next(c, EventOf(a)), C.PcOf(C.Next(c, EventOf(a)), a.t);
      && c'.tail == c.tail && (forall u :: u != a.t ==> C.PcOf(c', u) == C.PcOf(c, u))
      && (pc.Holding? ==> a.AdvanceDequeue?)
      && (if pc.Holding? then pc.first == c.head && pc.count > 0 && c'.claims == c.claims + C.Fill(pc.count, a.t)
                              && c'.head == c.head + pc.count
          else c'.claims == c.claims && c'.head == c.head && TicketOk(pc))
  {
    C.ThreadOk(c, a.t);
    hide C.Inv, C.Mark;
  }

  lemma CountersContents(p: Producer, s: Shared, p': Producer, t: ThreadId)
    requires Inv(p, s) && (t in p.work ==> p.work[t].Done?)
    requires p' == p.(counters := p'.counters, work := p'.work)
    requires forall u :: u != t ==> (u in p'.work <==> u in p.work) && (u in p.work ==> p'.work[u] == p.work[u])
    ensures ContentsOk(p', s)
  {
    hide Inv;
    Known(p, s, t);
    hide IndexOk, EnqueueOk, FillingOk, ThreadOk, HistoryOk, Contains, Range, Ord;
    forall q | 0 <= q < |p'.index.blockOf| ensures NumberOk(p', s, q) {
      assert NumberOk(p, s, q);
    }
    forall i: nat ensures ElementOk(p', s, i) {
      assert ElementOk(p, s, i);
    }
  }

  /** The thread at the counters, before and after: what it wants, or what it has just claimed. */
  lemma CountersThread(p: Producer, s: Shared, a: Action)
    requires Inv(p, s) && (a.BeginDequeue? || a.AdvanceDequeue? || a.EndDequeue?)
    requires if a.EndDequeue? then a.t in p.work && p.work[a.t].Done? else a.t !in p.work
    requires a.BeginDequeue? ==> a.max > 0
    ensures var p' := Step(p, s, a).0; ThreadOk(p', a.t)
  {
    hide Inv, C.Next, C.Inv, HistoryOk;
    Known(p, s, a.t);
    CountersStep(p.counters, a);
    hide IndexOk, EnqueueOk, FillingOk, ContentsOk;
    var p' := Step(p, s, a).0;
    if a.t in p'.work {
      FreshClaim(p, p', p'.work[a.t]);
    }
  }

  lemma FreshClaim(p: Producer, p': Producer, w: Work)
    requires HistoryOk(p) && p'.got == p.got && p'.finished == p.finished
    requires w.ReadHeader? && w.first == p.counters.head && w.n > 0
    ensures ProgressOk(p', w)
  {
  }

  lemma CountersHistory(p: Producer, s: Shared, a: Action)
    requires Inv(p, s) && (a.BeginDequeue? || a.AdvanceDequeue? || a.EndDequeue?)
    requires if a.EndDequeue? then a.t in p.work && p.work[a.t].Done? else a.t !in p.work
    requires a.BeginDequeue? ==> a.max > 0
    ensures var p' := Step(p, s, a).0;
      && HistoryOk(p') && (forall u :: u != a.t ==> C.PcOf(p'.counters, u) == C.PcOf(p.counters, u))
      && p'.counters.tail == p.counters.tail
  {
    hide Inv, C.Next, C.Inv, PlaceOk, ProgressOk;
    Known(p, s, a.t);
    CountersStep(p.counters, a);
    hide IndexOk, EnqueueOk, FillingOk, ContentsOk, TicketOk;
    var p' := Step(p, s, a).0;
    assert |p.counters.claims| == p.counters.head by { ClaimsCounted(p.counters); }
    forall k | 0 <= k < |p'.counters.claims| ensures IndexSettled(p', k) {
      if k < |p.counters.claims| { assert IndexSettled(p, k); }
    }
  }

  lemma ClaimsCounted(c: C.State)
    requires C.Inv(c)
    ensures |c.claims| == c.head
  {
  }

  lemma CountersKeepInv(p: Producer, s: Shared, a: Action)
    requires Inv(p, s) && C.Windowed(p.counters) && (a.BeginDequeue? || a.AdvanceDequeue? || a.EndDequeue?)
    requires if a.EndDequeue? then a.t in p.work && p.work[a.t].Done? else a.t !in p.work
    requires a.BeginDequeue? ==> a.max > 0
    ensures Inv(Step(p, s, a).0, s)
  {
    hide Inv, C.Next, C.Windowed, IndexOk, EnqueueOk, FillingOk, C.Inv, ThreadOk, HistoryOk, WindowsKept, ContentsOk;
    var p' := Step(p, s, a).0;
    Known(p, s, a.t);
    C.NextKeepsInv(p.counters, EventOf(a));
    CountersThread(p, s, a);
    CountersHistory(p, s, a);
    CountersContents(p, s, p', a.t);
    SameIndexKept(p.index);
    forall u ensures ThreadOk(p', u) {
      if u != a.t { ThreadKept(p, s, p', u); }
    }
    FromParts(p', s);
  }

  /** Every atomic operation of a sub-queue keeps its invariant. */
  lemma StepKeepsInv(p: Producer, s: Shared, a: Action)
    requires Inv(p, s) && Distinct(p) && C.Windowed(p.counters)
    ensures var (p', s') := Step(p, s, a); Inv(p', s')
  {
    hide Inv, Distinct, C.Windowed, C.Next;
    match a {
      case BeginEnqueue(v) => if p.enqueue.Resting? { BeginEnqueueKeepsInv(p, s, v); }
      case AdvanceEnqueue(supply, fails, garbage) => EnqueueKeepsInv(p, s, supply, fails, garbage);
      case BeginDequeue(t, max) => if max > 0 { BeginKeepsInv(p, s, t, max); }
      case AdvanceDequeue(t) => if t in p.work { WorkKeepsInv(p, s, t); } else { CountersKeepInv(p, s, a); }
      case EndDequeue(t) => if t in p.work && p.work[t].Done? { CountersKeepInv(p, s, a); }
    }
  }

  lemma BeginKeepsInv(p: Producer, s: Shared, t: ThreadId, max: nat)
    requires Inv(p, s) && C.Windowed(p.counters) && max > 0
    ensures Inv(Step(p, s, BeginDequeue(t, max)).0, s)
  {
    hide Inv, C.Windowed;
    if t in p.work {
      ClaimKnown(p, s, t);
      assert C.Next(p.counters, C.Begin(t, max)) == p.counters;
    } else {
      CountersKeepInv(p, s, BeginDequeue(t, max));
    }
  }

  lemma NewIndexOk(garbage: Option<BlockId>)
    ensures IndexOk(NewProducer(garbage).index)
  {
    var x := NewProducer(garbage).index;
    RingIs(-1, 31, -1, 32);
    var h := FreshHeader();
    forall r | h.top - h.capacity < r <= h.top - h.window ensures Unused(x, IndexAt(h, Slot(h, r))) {
      SlotWraps(h, r);
    }
  }

  lemma NewProducerOk(garbage: Option<BlockId>, s: Shared)
    ensures Inv(NewProducer(garbage), s) && Distinct(NewProducer(garbage))
    ensures forall b :: !Owns(NewProducer(garbage), b)
  {
    NewIndexOk(garbage);
    hide IndexOk;
    var p := NewProducer(garbage);
    forall u ensures ThreadOk(p, u) {
    }
  }
}
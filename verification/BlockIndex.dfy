/**
 * The circular block index of an implicit producer, its growth, and the lookup consumers make in it
 * (concurrentqueue.h:2883-3064). One writer, the enqueuer, takes entries in ring order, rewinds, and doubles the ring;
 * consumers clear the entries of emptied blocks in any order and may still be reading through an older, smaller ring.
 */
module BlockIndex {
  import opened Options
  import opened Modular

  type ThreadId = nat
  type BlockId = nat
  type EntryId = nat

  const BLOCK_SIZE: nat := 32
  const IMPLICIT_INITIAL_INDEX_SIZE: nat := 32
  const INVALID_BLOCK_BASE: int := 1

  /** Blocks in the order they are put to use: index i lives in block number i / BLOCK_SIZE. */
  function Ord(i: nat): nat { i / BLOCK_SIZE }

  function Offset(i: nat): nat { i % BLOCK_SIZE }

  function Base(q: int): int { q * BLOCK_SIZE }

  // ---- memory ----

  datatype Entry = Entry(key: int, value: Option<BlockId>)

  /**
   * A block index. History: the ring holds the entries of block numbers top - window + 1 to top, that of number r in
   * slot (r + shift) modulo capacity; tail is the slot of number last.
   */
  datatype Header = Header(capacity: nat, index: seq<EntryId>, tail: nat, shift: int, top: int, window: nat, last: int)

  /** History of a block number: in the index; being retired by the consumer that emptied it; back in the pool. */
  datatype Phase = Live | Closing(owner: ThreadId) | Cleared(owner: ThreadId) | Returned

  /** The block index of one producer; entryOf, blockOf and phase are history, one entry per block number. */
  datatype Index = Index(
    entries: seq<Entry>,
    headers: seq<Header>,        // newest last; each one's prev is the one before it
    entryOf: seq<EntryId>, blockOf: seq<BlockId>, phase: seq<Phase>
  )

  function FreshHeader(): Header {
    Header(IMPLICIT_INITIAL_INDEX_SIZE, seq(IMPLICIT_INITIAL_INDEX_SIZE, (i: nat) => i), IMPLICIT_INITIAL_INDEX_SIZE - 1,
           0, -1, 0, -1)
  }

  // ---- the index ----

  /** Capacities are powers of two, so the source's masks are remainders. */
  function Ring(k: int, capacity: nat): nat {
    if capacity == 0 then 0 else k % capacity
  }

  function Slot(h: Header, r: int): nat { Ring(r + h.shift, h.capacity) }

  function Current(x: Index): Header {
    if x.headers == [] then Header(0, [], 0, 0, -1, 0, -1) else x.headers[|x.headers| - 1]
  }

  function HeaderAt(x: Index, h: nat): Header {
    if h < |x.headers| then x.headers[h] else Current(x)
  }

  function SetCurrent(x: Index, h: Header): Index {
    if x.headers == [] then x else x.(headers := x.headers[|x.headers| - 1 := h])
  }

  function EntryAt(x: Index, e: EntryId): Entry {
    if e < |x.entries| then x.entries[e] else Entry(INVALID_BLOCK_BASE, None)
  }

  function IndexAt(h: Header, slot: nat): EntryId {
    if slot < |h.index| then h.index[slot] else 0
  }

  function SetKey(x: Index, e: EntryId, key: int): Index {
    if e < |x.entries| then x.(entries := x.entries[e := x.entries[e].(key := key)]) else x
  }

  function SetValue(x: Index, e: EntryId, value: Option<BlockId>): Index {
    if e < |x.entries| then x.(entries := x.entries[e := x.entries[e].(value := value)]) else x
  }

  function SetPhase(x: Index, q: nat, phase: Phase): Index {
    if q < |x.phase| then x.(phase := x.phase[q := phase]) else x
  }

  function MoveTail(x: Index, slot: nat, last: int): Index {
    SetCurrent(x, Current(x).(tail := slot, last := last))
  }

  /** The entry is now that of block number q, which the ring gains unless an undone attempt had already put it there. */
  function TakeEntry(x: Index, e: EntryId, q: nat): Index {
    var x1, h := SetKey(x, e, Base(q)), Current(x);
    if |x.entryOf| == q then
      SetCurrent(x1, h.(top := q, window := if h.window == h.capacity then h.window else h.window + 1))
        .(entryOf := x.entryOf + [e])
    else x1
  }

  function Publish(x: Index, e: EntryId, b: BlockId): Index {
    SetValue(x, e, Some(b)).(blockOf := x.blockOf + [b], phase := x.phase + [Live])
  }

  /** Block numbers from n on are no longer in use; their entries are still to be cleared and the tail rewound. */
  function Withdrawn(x: Index, n: nat): Index {
    if n <= |x.blockOf| && n <= |x.phase| then x.(blockOf := x.blockOf[..n], phase := x.phase[..n]) else x
  }

  /** get_block_index_entry_for_index, for the first index of block number q. */
  function LookedUp(x: Index, q: int): EntryId {
    var h := Current(x);
    var tailBase := EntryAt(x, IndexAt(h, h.tail)).key;
    IndexAt(h, Ring(h.tail + (Base(q) - tailBase) / BLOCK_SIZE, h.capacity))
  }

  function MovedEntry(h: Header, firstNew: EntryId, i: nat): EntryId {
    if i < h.capacity then IndexAt(h, Ring(h.tail + 1 + i, h.capacity)) else firstNew + (i - h.capacity)
  }

  /** new_block_index: the old ring from oldest to newest, then as many new entries. */
  function Doubled(h: Header, firstNew: EntryId): Header {
    Header(2 * h.capacity, seq(2 * h.capacity, (i: nat) => MovedEntry(h, firstNew, i)),
           Ring(h.capacity - 1, 2 * h.capacity), h.capacity - 1 - h.last, h.top, h.window, h.last)
  }

  function Grown(x: Index, garbage: Option<BlockId>): Index {
    x.(entries := x.entries + seq(Current(x).capacity, _ => Entry(INVALID_BLOCK_BASE, garbage)),
       headers := x.headers + [Doubled(Current(x), |x.entries|)])
  }

  // ---- the invariant of the index ----

  predicate Holds(phase: Phase) { phase.Live? || phase.Closing? }

  predicate InWindow(h: Header, r: int) { h.top - h.window < r <= h.top }

  /** The ring maps the numbers in its window to their entries. */
  ghost predicate Maps(x: Index, h: Header) {
    forall r :: InWindow(h, r) && 0 <= r < |x.entryOf| ==> IndexAt(h, Slot(h, r)) == x.entryOf[r]
  }

  ghost predicate HeaderOk(x: Index, h: Header) {
    && h.capacity >= IMPLICIT_INITIAL_INDEX_SIZE && |h.index| == h.capacity
    && 0 <= h.window <= h.capacity && h.window <= h.top + 1 <= |x.entryOf|
    && (h.window == h.top + 1 || h.window >= IMPLICIT_INITIAL_INDEX_SIZE)
    && -1 <= h.last <= h.top && h.tail == Slot(h, h.last)
    && Maps(x, h)
  }

  /** The entry of block number r says so, and points at its block for as long as a consumer may need it. */
  ghost predicate EntryOk(x: Index, r: int)
    requires 0 <= r < |x.entryOf|
  {
    && EntryAt(x, x.entryOf[r]).key == Base(r)
    && (r < |x.blockOf| && r < |x.phase| ==>
          EntryAt(x, x.entryOf[r]).value == if Holds(x.phase[r]) then Some(x.blockOf[r]) else None)
  }

  ghost predicate EntriesDiffer(h: Header, n: nat) {
    && (forall i :: 0 <= i < |h.index| ==> h.index[i] < n)
    && (forall i, j :: 0 <= i < j < |h.index| ==> h.index[i] != h.index[j])
  }

  predicate Unused(x: Index, e: EntryId) { EntryAt(x, e).key == INVALID_BLOCK_BASE }

  ghost predicate WindowOk(x: Index, h: Header) {
    forall r :: InWindow(h, r) && 0 <= r < |x.entryOf| ==> EntryOk(x, r)
  }

  ghost predicate SpareOk(x: Index, h: Header) {
    forall r :: h.top - h.capacity < r <= h.top - h.window ==> Unused(x, IndexAt(h, Slot(h, r)))
  }

  ghost predicate HoldersListed(x: Index, h: Header) {
    forall q :: 0 <= q < |x.phase| && Holds(x.phase[q]) ==> InWindow(h, q)
  }

  ghost predicate RingOk(x: Index, h: Header) {
    EntriesDiffer(h, |x.entries|) && WindowOk(x, h) && SpareOk(x, h) && HoldersListed(x, h)
  }

  ghost predicate IndexOk(x: Index) {
    && |x.phase| == |x.blockOf| && |x.headers| > 0
    && (forall i :: 0 <= i < |x.headers| ==> HeaderOk(x, x.headers[i]))
    && (forall i :: 0 <= i < |x.headers| - 1 ==> x.headers[i].last == x.headers[i].top)
    && |x.entryOf| == Current(x).top + 1
    && Current(x).top - Current(x).window < |x.blockOf| <= |x.entryOf|
    && RingOk(x, Current(x))
  }

  // ---- ring arithmetic ----

  lemma RingIs(k: int, r: nat, m: int, c: nat)
    requires r < c && k == m * c + r
    ensures Ring(k, c) == r
  {
    RemainderIs(k, r, m, c);
  }

  lemma RingWraps(k: int, c: nat)
    requires c > 0
    ensures Ring(k + c, c) == Ring(k, c) < c
  {
    ShiftRemainder(c, k, c);
    RemainderIs(c, 0, 1, c);
  }

  lemma RingAdvance(k: int, j: int, c: nat)
    requires c > 0
    ensures Ring(Ring(k, c) + j, c) == Ring(k + j, c) < c
  {
    ShiftRemainder(k, j, c);
  }

  lemma RingDiffers(a: int, b: int, c: nat)
    requires c > 0 && a - b < c && b - a < c && a != b
    ensures Ring(a, c) != Ring(b, c) && Ring(a, c) < c && Ring(b, c) < c
  {
    if Ring(a, c) == Ring(b, c) {
      SameRemainder(a, b, c);
    }
  }

  lemma SlotAdvance(h: Header, r: int, k: int)
    requires h.capacity > 0
    ensures Ring(Slot(h, r) + k, h.capacity) == Slot(h, r + k) < h.capacity
  {
    RingAdvance(r + h.shift, k, h.capacity);
  }

  lemma SlotWraps(h: Header, r: int)
    requires h.capacity > 0
    ensures Slot(h, r + h.capacity) == Slot(h, r) < h.capacity
  {
    RingWraps(r + h.shift, h.capacity);
  }

  lemma SlotsDiffer(h: Header, a: int, b: int)
    requires h.capacity > 0 && a - b < h.capacity && b - a < h.capacity && a != b
    ensures Slot(h, a) != Slot(h, b) && Slot(h, a) < h.capacity && Slot(h, b) < h.capacity
  {
    RingDiffers(a + h.shift, b + h.shift, h.capacity);
  }

  /** Different slots of a ring hold different entries. */
  lemma EntriesOfSlotsDiffer(h: Header, n: nat, a: nat, b: nat)
    requires EntriesDiffer(h, n) && a < |h.index| && b < |h.index| && a != b
    ensures IndexAt(h, a) != IndexAt(h, b) && IndexAt(h, a) < n && IndexAt(h, b) < n
  {
    if a < b { var _ := h.index[a] != h.index[b]; } else { var _ := h.index[b] != h.index[a]; }
  }

  // ---- what the invariant says of one header, entry, number ----

  lemma CurrentKnown(x: Index)
    requires IndexOk(x)
    ensures var h := Current(x);
      && HeaderOk(x, h) && RingOk(x, h) && |x.phase| == |x.blockOf| && |x.headers| > 0
      && |x.entryOf| == h.top + 1 && h.top - h.window < |x.blockOf| <= |x.entryOf|
  {
    hide HeaderOk, RingOk;
    assert HeaderOk(x, x.headers[|x.headers| - 1]);
  }

  lemma HeaderKnown(x: Index, h: nat)
    requires IndexOk(x) && h < |x.headers|
    ensures HeaderOk(x, x.headers[h]) && (h < |x.headers| - 1 ==> x.headers[h].last == x.headers[h].top)
  {
    hide HeaderOk, RingOk;
  }

  lemma NumberKnown(x: Index, r: int)
    requires IndexOk(x) && InWindow(Current(x), r)
    ensures 0 <= r < |x.entryOf| && x.entryOf[r] == IndexAt(Current(x), Slot(Current(x), r)) < |x.entries| && EntryOk(x, r)
  {
    CurrentKnown(x);
    var h := Current(x);
    assert Slot(h, r) < h.capacity by { SlotWraps(h, r); }
    assert h.index[Slot(h, r)] == x.entryOf[r];
  }

  lemma HoldsInWindow(x: Index, q: nat)
    requires IndexOk(x) && q < |x.phase| && Holds(x.phase[q])
    ensures InWindow(Current(x), q)
  {
    CurrentKnown(x);
  }

  lemma NumbersDiffer(x: Index, a: int, b: int)
    requires IndexOk(x) && InWindow(Current(x), a) && InWindow(Current(x), b) && a != b
    ensures 0 <= a < |x.entryOf| && 0 <= b < |x.entryOf| && x.entryOf[a] != x.entryOf[b]
  {
    hide IndexOk, WindowOk, SpareOk, HoldersListed, EntriesDiffer, Maps;
    CurrentKnown(x);
    NumberKnown(x, a);
    NumberKnown(x, b);
    SlotsDiffer(Current(x), a, b);
    hide Slot;
    EntriesOfSlotsDiffer(Current(x), |x.entries|, Slot(Current(x), a), Slot(Current(x), b));
  }
}

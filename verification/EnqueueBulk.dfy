/**
 * enqueue_bulk of an implicit producer (concurrentqueue.h:2625-2774) with the block index it works on, as the source's
 * loops do it while no consumer is at work: all blocks are allocated and indexed first, then the elements are built; if a
 * block cannot be had, or an element's constructor throws, everything done so far is undone. SubQueue has the same
 * operation step by step among consumers.
 */
module EnqueueBulk {
  import opened Options
  import opened Modular
  import opened BlockIndex

  /** The current block index: entries, the ring of slots that point at them, and the slot of the latest block. */
  datatype Table = Table(entries: seq<Entry>, index: seq<EntryId>, tail: nat)

  /** The entry k slots after the tail's. */
  function EntryAfter(t: Table, k: int): EntryId {
    var slot := Ring(t.tail + k, |t.index|);
    if slot < |t.index| then t.index[slot] else 0
  }

  /** The entry of block number r, when the tail's is that of number last. */
  function EntryOf(t: Table, last: int, r: int): Entry {
    var e := EntryAfter(t, r - last);
    if e < |t.entries| then t.entries[e] else Entry(INVALID_BLOCK_BASE, None)
  }

  ghost predicate TableOk(t: Table) {
    && t.tail < |t.index|
    && (forall i :: 0 <= i < |t.index| ==> t.index[i] < |t.entries|)
    && (forall i, j :: 0 <= i < j < |t.index| ==> t.index[i] != t.index[j])
  }

  /** The number of the block that holds the index before this one; -1 at the very beginning. */
  function LastNumber(tailIndex: nat): int { (tailIndex - 1) / BLOCK_SIZE }

  predicate IsOf(e: Entry, r: int) { e.key == Base(r) && e.value.Some? }

  ghost predicate Held(t: Table, last: int, lo: int, up: int) { forall r :: lo <= r <= up ==> IsOf(EntryOf(t, last, r), r) }

  /** Numbers lo to up have the same entries in two tables. */
  ghost predicate Same(t: Table, last: int, t': Table, last': int, lo: int, up: int) {
    forall r :: lo <= r <= up ==> EntryOf(t', last', r) == EntryOf(t, last, r)
  }

  // ---- the table's operations ----

  function Rewound(t: Table): Table { t.(tail := Ring(t.tail - 1, |t.index|)) }

  /** The slot after the tail's is taken for block number q. */
  function Taken(t: Table, q: int): Table
    requires EntryAfter(t, 1) < |t.entries|
  {
    var e := EntryAfter(t, 1);
    Table(t.entries[e := t.entries[e].(key := Base(q))], t.index, Ring(t.tail + 1, |t.index|))
  }

  function WithValue(t: Table, e: EntryId, v: Option<BlockId>): Table
    requires e < |t.entries|
  {
    t.(entries := t.entries[e := t.entries[e].(value := v)])
  }

  function Moved(t: Table, i: nat): EntryId { if i < |t.index| then EntryAfter(t, i + 1) else |t.entries| + (i - |t.index|) }

  /** new_block_index: the old ring from oldest to newest, then as many new entries. */
  function Enlarged(t: Table, garbage: Option<BlockId>): Table {
    Table(t.entries + seq(|t.index|, _ => Entry(INVALID_BLOCK_BASE, garbage)), seq(2 * |t.index|, (i: nat) => Moved(t, i)),
          Ring(|t.index| - 1, 2 * |t.index|))
  }

  lemma EntryIs(t: Table, last: int, r: int)
    requires TableOk(t)
    ensures EntryAfter(t, r - last) < |t.entries| && EntryOf(t, last, r) == t.entries[EntryAfter(t, r - last)]
  {
    RingWraps(t.tail + r - last, |t.index|);
  }

  lemma SlotsApart(t: Table, j: int, k: int)
    requires TableOk(t) && j != k && -|t.index| < j - k < |t.index|
    ensures EntryAfter(t, j) != EntryAfter(t, k)
  {
    RingDiffers(t.tail + j, t.tail + k, |t.index|);
    hide Ring;
    var a, b := Ring(t.tail + j, |t.index|), Ring(t.tail + k, |t.index|);
    if a < b { assert t.index[a] != t.index[b]; } else { assert t.index[b] != t.index[a]; }
  }

  lemma RewindShifts(t: Table, k: int)
    requires TableOk(t)
    ensures TableOk(Rewound(t)) && EntryAfter(Rewound(t), k) == EntryAfter(t, k - 1)
  {
    hide Ring;
    RingWraps(t.tail - 1, |t.index|);
    RingAdvance(t.tail - 1, k, |t.index|);
    assert t.tail - 1 + k == t.tail + (k - 1);
  }

  lemma RewindKeeps(t: Table, last: int, lo: int, up: int)
    requires TableOk(t)
    ensures TableOk(Rewound(t)) && Same(t, last, Rewound(t), last - 1, lo, up)
  {
    hide EntryAfter;
    forall r | lo <= r <= up ensures EntryOf(Rewound(t), last - 1, r) == EntryOf(t, last, r) {
      RewindShifts(t, r - (last - 1));
    }
    RewindShifts(t, 0);
  }

  lemma TakeShifts(t: Table, q: int, k: int)
    requires TableOk(t)
    ensures EntryAfter(t, 1) < |t.entries|
    ensures TableOk(Taken(t, q)) && EntryAfter(Taken(t, q), k) == EntryAfter(t, k + 1)
  {
    hide Ring;
    RingWraps(t.tail + 1, |t.index|);
    RingAdvance(t.tail + 1, k, |t.index|);
  }

  /** Taking the next slot leaves the numbers of a ring that is not full alone. */
  lemma TakeKeeps(t: Table, last: int, lo: int)
    requires TableOk(t) && last + 1 - lo < |t.index|
    ensures EntryAfter(t, 1) < |t.entries|
    ensures var t' := Taken(t, last + 1);
      && TableOk(t') && Same(t, last, t', last + 1, lo, last)
      && EntryAfter(t', 0) == EntryAfter(t, 1)
      && EntryOf(t', last + 1, last + 1) == t.entries[EntryAfter(t, 1)].(key := Base(last + 1))
  {
    hide EntryAfter;
    TakeShifts(t, last + 1, 0);
    EntryIs(t, last, last + 1);
    var t' := Taken(t, last + 1);
    EntryIs(t', last + 1, last + 1);
    forall r | lo <= r <= last ensures EntryOf(t', last + 1, r) == EntryOf(t, last, r) {
      TakeShifts(t, last + 1, r - (last + 1));
      SlotsApart(t, 1, r - last);
      EntryIs(t, last, r);
    }
  }

  /** A slot that may be taken is not that of a number still held. */
  lemma FreeSlotIsApart(t: Table, last: int, lo: int)
    requires TableOk(t) && last - lo < |t.index| && Held(t, last, lo, last) && 0 <= lo
    requires EntryOf(t, last, last + 1).key == INVALID_BLOCK_BASE || EntryOf(t, last, last + 1).value.None?
    ensures last + 1 - lo < |t.index|
  {
    var r := last + 1 - |t.index|;
    SlotComesRound(t, last);
    assert lo <= r <= last ==> IsOf(EntryOf(t, last, r), r);
  }

  lemma SlotComesRound(t: Table, last: int)
    requires TableOk(t)
    ensures EntryOf(t, last, last + 1) == EntryOf(t, last, last + 1 - |t.index|)
  {
    RingWraps(t.tail + 1 - |t.index|, |t.index|);
    hide Ring;
    assert t.tail + 1 - |t.index| + |t.index| == t.tail + 1;
  }

  lemma ValueKeeps(t: Table, last: int, q: int, v: Option<BlockId>, lo: int, up: int)
    requires TableOk(t) && lo <= q <= up && up - lo < |t.index|
    ensures EntryAfter(t, q - last) < |t.entries|
    ensures var t' := WithValue(t, EntryAfter(t, q - last), v);
      && TableOk(t') && Same(t, last, t', last, lo, q - 1) && Same(t, last, t', last, q + 1, up)
      && EntryOf(t', last, q) == EntryOf(t, last, q).(value := v)
  {
    EntryIs(t, last, q);
    hide EntryAfter;
    var t' := WithValue(t, EntryAfter(t, q - last), v);
    forall k ensures EntryAfter(t', k) == EntryAfter(t, k) { SameSlot(t, t', k); }
    forall r | lo <= r <= up && r != q ensures EntryOf(t', last, r) == EntryOf(t, last, r) {
      SlotsApart(t, r - last, q - last);
    }
  }

  lemma SameSlot(t: Table, t': Table, k: int)
    requires t'.index == t.index && t'.tail == t.tail
    ensures EntryAfter(t', k) == EntryAfter(t, k)
  {
  }

  lemma EnlargedAfter(t: Table, garbage: Option<BlockId>, k: int)
    requires TableOk(t) && -|t.index| < k <= 1
    ensures EntryAfter(Enlarged(t, garbage), k) == if k == 1 then |t.entries| else EntryAfter(t, k)
  {
    var c, t' := |t.index|, Enlarged(t, garbage);
    RingIs(c - 1, c - 1, 0, 2 * c);
    RingIs(c - 1 + k, c - 1 + k, 0, 2 * c);
    hide Ring;
    assert EntryAfter(t', k) == Moved(t, c - 1 + k);
    if k < 1 {
      RingWraps(t.tail + k, c);
      assert EntryAfter(t, c + k) == EntryAfter(t, k);
    }
  }

  lemma MovedApart(t: Table, i: nat, j: nat)
    requires TableOk(t) && i < j < 2 * |t.index|
    ensures Moved(t, i) != Moved(t, j) && Moved(t, j) < |t.entries| + |t.index| && Moved(t, i) < |t.entries| + |t.index|
  {
    hide EntryAfter;
    EntryIs(t, 0, i + 1);
    EntryIs(t, 0, j + 1);
    if j < |t.index| { SlotsApart(t, i + 1, j + 1); }
  }

  /** Growth keeps every number's entry, and makes the next slot one never used. */
  lemma GrowthKeeps(t: Table, garbage: Option<BlockId>, last: int, lo: int)
    requires TableOk(t) && last - lo < |t.index|
    ensures var t' := Enlarged(t, garbage);
      && TableOk(t') && last + 1 - lo < |t'.index| && Same(t, last, t', last, lo, last)
      && EntryOf(t', last, last + 1).key == INVALID_BLOCK_BASE
  {
    var t', c := Enlarged(t, garbage), |t.index|;
    RingIs(c - 1, c - 1, 0, 2 * c);
    forall i | 0 <= i < 2 * c ensures t'.index[i] < |t'.entries| {
      if i + 1 < 2 * c { MovedApart(t, i, i + 1); } else { MovedApart(t, i - 1, i); }
    }
    forall i, j | 0 <= i < j < 2 * c ensures t'.index[i] != t'.index[j] { MovedApart(t, i, j); }
    assert TableOk(t');
    hide EntryAfter, TableOk;
    EnlargedAfter(t, garbage, 1);
    forall r | lo <= r <= last ensures EntryOf(t', last, r) == EntryOf(t, last, r) {
      EnlargedAfter(t, garbage, r - last);
      EntryIs(t, last, r);
    }
  }

  // ---- the producer ----

  /** What an iteration meets: a full sub-queue, an index that may or may not grow, a block or none. */
  datatype Chance = Chance(full: bool, grows: bool, garbage: Option<BlockId>, block: Option<BlockId>)

  /** Nothing stands in the way of another block. */
  predicate Lucky(c: Chance) { !c.full && c.grows && c.block.Some? }

  /** The block in which elements of number r are. */
  function BlockNumbered(t: Table, last: int, r: int): BlockId {
    var e := EntryOf(t, last, r);
    if e.value.Some? then e.value.value else 0
  }

  /** The cell of index i. */
  function Cell(t: Table, last: int, i: nat): (BlockId, nat) { (BlockNumbered(t, last, Ord(i)), Offset(i)) }

  /** The elements of indices lo to hi, each looked up in the block index. */
  function Found<E>(t: Table, last: int, memory: map<(BlockId, nat), E>, lo: nat, hi: nat): (s: seq<E>)
    requires lo <= hi && forall i :: lo <= i < hi ==> Cell(t, last, i) in memory
    ensures |s| == hi - lo
  {
    seq(hi - lo, k requires 0 <= k < hi - lo => memory[Cell(t, last, lo + k)])
  }

  /** Blocks linked in a list, ending. */
  ghost predicate Chained(links: map<BlockId, Option<BlockId>>, blocks: seq<BlockId>) {
    forall i :: 0 <= i < |blocks| ==> blocks[i] in links && links[blocks[i]] == At(blocks, i + 1)
  }

  function At(blocks: seq<BlockId>, i: nat): Option<BlockId> { if i < |blocks| then Some(blocks[i]) else None }

  /** The block before the first new one leads to it, if it is still the producer's. */
  ghost predicate Linked(links: map<BlockId, Option<BlockId>>, startBlock: Option<BlockId>, tailIndex: nat, blocks: seq<BlockId>) {
    blocks != [] && Offset(tailIndex) != 0 && startBlock.Some? ==>
      startBlock.value in links && links[startBlock.value] == Some(blocks[0])
  }

  /** The next block joins the list. */
  lemma LinkedOneMore(links: map<BlockId, Option<BlockId>>, startBlock: Option<BlockId>, tailIndex: nat, blocks: seq<BlockId>, b: BlockId)
    requires Chained(links, blocks) && Linked(links, startBlock, tailIndex, blocks) && b !in blocks
    requires Offset(tailIndex) != 0 ==> startBlock.Some? && startBlock.value != b && startBlock.value !in blocks
    requires forall i, j :: 0 <= i < j < |blocks| ==> blocks[i] != blocks[j]
    ensures var latest, more := Latest(startBlock, blocks), links[b := None];
      var linked := if Offset(tailIndex) != 0 || blocks != [] then more[latest.value := Some(b)] else more;
      Chained(linked, blocks + [b]) && Linked(linked, startBlock, tailIndex, blocks + [b])
  {
  }

  lemma NothingListed(t: Table, last: int, lo: int, links: map<BlockId, Option<BlockId>>, startBlock: Option<BlockId>, tailIndex: nat)
    ensures Same(t, last, t, last, lo, last) && Listed(t, last, last, []) && Chained(links, []) && Linked(links, startBlock, tailIndex, [])
  {
  }

  /** The numbers after first have these blocks, in order. */
  ghost predicate Listed(t: Table, last: int, first: int, blocks: seq<BlockId>) {
    forall r :: first < r <= first + |blocks| ==> EntryOf(t, last, r) == Entry(Base(r), Some(blocks[r - first - 1]))
  }

  /** The numbers after first still have their keys. */
  ghost predicate Keyed(t: Table, last: int, first: int, n: nat) {
    forall r :: first < r <= first + n ==> EntryOf(t, last, r).key == Base(r)
  }

  lemma UndoOne(t: Table, last: int, first: int, n: nat, q: int, lo: nat)
    requires TableOk(t) && first < q <= first + n && first + n - lo < |t.index| && Keyed(t, last, first, n) && lo <= first + 1
    ensures EntryAfter(t, q - last) < |t.entries|
    ensures var u := WithValue(t, EntryAfter(t, q - last), None);
      && TableOk(u) && TableOk(Rewound(u)) && |Rewound(u).index| == |t.index|
      && Same(t, last, Rewound(u), last - 1, lo, first) && Keyed(Rewound(u), last - 1, first, n)
  {
    ValueKeeps(t, last, q, None, lo, first + n);
    var u := WithValue(t, EntryAfter(t, q - last), None);
    RewindKeeps(u, last, lo, first + n);
    assert |Rewound(u).index| == |t.index|;
    hide EntryAfter, TableOk, EntryOf, Rewound, WithValue;
    forall r | first < r <= first + n ensures EntryOf(Rewound(u), last - 1, r).key == Base(r) {
      assert EntryOf(Rewound(u), last - 1, r) == EntryOf(u, last, r);
    }
  }

  /** How many new blocks count elements after the tail need. */
  function Needed(tailIndex: nat, count: nat): nat {
    LastNumber(tailIndex + count) - LastNumber(tailIndex)
  }

  /** The blocks are those obtained, in order. */
  ghost predicate Chosen(chances: seq<Chance>, blocks: seq<BlockId>) {
    |blocks| <= |chances| && forall i :: 0 <= i < |blocks| ==> chances[i].block == Some(blocks[i])
  }

  /** No block obtained is in use for numbers lo to last, or obtained twice; requisition_block sees to that. */
  ghost predicate ChancesOk(chances: seq<Chance>, t: Table, last: int, lo: int) {
    && (forall i, r :: 0 <= i < |chances| && chances[i].block.Some? && lo <= r <= last ==>
          chances[i].block.value != BlockNumbered(t, last, r))
    && (forall i, j :: 0 <= i < j < |chances| && chances[i].block.Some? ==> chances[i].block != chances[j].block)
  }

  /** So the blocks chosen differ from each other, from the next one, and from those in use. */
  lemma ChosenDiffer(chances: seq<Chance>, t: Table, last: int, lo: int, blocks: seq<BlockId>)
    requires ChancesOk(chances, t, last, lo) && Chosen(chances, blocks)
    ensures forall i, j :: 0 <= i < j < |blocks| ==> blocks[i] != blocks[j]
    ensures forall i, r :: 0 <= i < |blocks| && lo <= r <= last ==> blocks[i] != BlockNumbered(t, last, r)
    ensures |blocks| < |chances| && chances[|blocks|].block.Some? ==>
              var b := chances[|blocks|].block.value;
              b !in blocks && forall r :: lo <= r <= last ==> b != BlockNumbered(t, last, r)
  {
    hide BlockNumbered;
  }

  function Latest(startBlock: Option<BlockId>, blocks: seq<BlockId>): Option<BlockId> {
    if blocks == [] then startBlock else Some(blocks[|blocks| - 1])
  }

  lemma AllHeld(t: Table, first: int, u: Table, last: int, lo: int, blocks: seq<BlockId>)
    requires Held(t, first, lo, first) && Same(t, first, u, last, lo, first)
    requires last == first + |blocks| && Listed(u, last, first, blocks)
    ensures Held(u, last, lo, last)
  {
    hide EntryOf;
  }

  lemma ListedIsKeyed(t: Table, last: int, first: int, blocks: seq<BlockId>)
    requires Listed(t, last, first, blocks)
    ensures Keyed(t, last, first, |blocks|)
  {
    hide EntryOf;
  }

  /** Undoing the latest entry restores the numbers before it. */
  lemma TakeUndone(before: Table, taken: Table, number: int, lo: int)
    requires TableOk(taken) && number - lo < |taken.index| && lo <= number && Same(before, number - 1, taken, number, lo, number - 1)
    ensures EntryAfter(taken, 0) < |taken.entries|
    ensures var t := WithValue(Rewound(taken), EntryAfter(taken, 0), None);
      TableOk(t) && |t.index| == |taken.index| && Same(before, number - 1, t, number - 1, lo, number - 1)
  {
    RewindShifts(taken, 1);
    RewindKeeps(taken, number, lo, number);
    hide EntryAfter, EntryOf, TableOk;
    ValueKeeps(Rewound(taken), number - 1, number, None, lo, number);
  }

  lemma CarriedOver(t: Table, first: int, u: Table, last: int, v: Table, last': int, lo: int, blocks: seq<BlockId>)
    requires Same(t, first, u, last, lo, first) && Same(u, last, v, last', lo, last) && lo <= first + 1
    requires last == first + |blocks| && Listed(u, last, first, blocks)
    ensures Same(t, first, v, last', lo, first) && Listed(v, last', first, blocks)
  {
    hide EntryOf;
  }

  lemma ListedOneMore(t: Table, last: int, first: int, blocks: seq<BlockId>, b: BlockId)
    requires last == first + |blocks| + 1 && Listed(t, last, first, blocks) && EntryOf(t, last, last) == Entry(Base(last), Some(b))
    ensures Listed(t, last, first, blocks + [b])
  {
    hide EntryOf;
  }

  /** Every block the elements go to is indexed, each a different one, and linked to the next. */
  ghost predicate Ready(
      t: Table, tailIndex: nat, lo: nat, count: nat, links: map<BlockId, Option<BlockId>>, startBlock: Option<BlockId>,
      blocks: seq<BlockId>)
  {
    var last, end := LastNumber(tailIndex), LastNumber(tailIndex + count);
    && end == last + |blocks|
    && Apart(t, end, lo)
    && (Offset(tailIndex) != 0 ==> startBlock == Some(BlockNumbered(t, end, last)))
    && (forall r :: last < r <= end ==> BlockNumbered(t, end, r) == blocks[r - last - 1])
    && Chained(links, blocks) && Linked(links, startBlock, tailIndex, blocks)
  }

  predicate Before(c: (BlockId, nat), b: BlockId, offset: nat) { c.0 == b ==> c.1 < offset }

  lemma InBlock(current: nat, stop: nat)
    requires stop <= Base(Ord(current) + 1)
    ensures forall j :: current <= j < stop ==> Offset(j) == Offset(current) + (j - current)
  {
  }

  /** What consumers would find up to `current`: the old elements, then the new. */
  ghost predicate Placed<E>(
      prior: map<(BlockId, nat), E>, memory: map<(BlockId, nat), E>, t: Table, last: int, head: nat, tail: nat, current: nat, items: seq<E>)
  {
    && (forall i :: head <= i < tail ==>
          var c := Cell(t, last, i); c in prior && c in memory && memory[c] == prior[c])
    && (forall i :: tail <= i < current && i - tail < |items| ==>
          var c := Cell(t, last, i); c in memory && memory[c] == items[i - tail])
  }

  /** The filling has come to `current`, in the block of number `number`. */
  ghost predicate Reached(
      t: Table, tailIndex: nat, count: nat, startBlock: Option<BlockId>, blocks: seq<BlockId>, current: nat, number: int,
      tailBlock: Option<BlockId>)
  {
    var last, end := LastNumber(tailIndex), LastNumber(tailIndex + count);
    && (if current < tailIndex + count then Ord(current) == number else number == end)
    && (if blocks == [] && Offset(tailIndex) == 0 then count == 0 && tailBlock == startBlock && number == last
        else last <= number && (Offset(tailIndex) == 0 ==> number > last) && tailBlock == Some(BlockNumbered(t, end, number)))
  }

  lemma BeginsReady(
      t: Table, tailIndex: nat, lo: nat, count: nat, links: map<BlockId, Option<BlockId>>, startBlock: Option<BlockId>,
      blocks: seq<BlockId>)
    requires Ready(t, tailIndex, lo, count, links, startBlock, blocks)
    ensures var crosses := Offset(tailIndex) == 0 && blocks != [];
      var number := LastNumber(tailIndex) + if crosses then 1 else 0;
      && Reached(t, tailIndex, count, startBlock, blocks, tailIndex, number, if crosses then Some(blocks[0]) else startBlock)
      && number <= LastNumber(tailIndex + count)
  {
    hide BlockNumbered;
  }

  /** The cells of indices lo to hi. */
  ghost function Cells(t: Table, last: int, lo: nat, hi: nat): set<(BlockId, nat)> {
    set i | lo <= i < hi :: Cell(t, last, i)
  }

  /** The same, all in one block. */
  ghost function CellsIn(b: BlockId, lo: nat, hi: nat): set<(BlockId, nat)> { set i | lo <= i < hi :: (b, Offset(i)) }

  /** Two memories agree outside some cells. */
  ghost predicate AgreeOutside<E>(m: map<(BlockId, nat), E>, m': map<(BlockId, nat), E>, cells: set<(BlockId, nat)>) {
    forall c :: c !in cells ==> (c in m' <==> c in m) && (c in m ==> m'[c] == m[c])
  }

  lemma OneMoreCell(b: BlockId, lo: nat, hi: nat)
    requires lo <= hi
    ensures CellsIn(b, lo, hi + 1) == CellsIn(b, lo, hi) + {(b, Offset(hi))}
  {
    hide Offset;
  }

  /** Indices lo to hi are in block b. */
  ghost predicate InOne(t: Table, last: int, lo: nat, hi: nat, b: BlockId) {
    forall i :: lo <= i < hi ==> BlockNumbered(t, last, Ord(i)) == b
  }

  lemma DestroyedMore<E>(m: map<(BlockId, nat), E>, t: Table, last: int, lo: nat, mid: nat, hi: nat, b: BlockId)
    requires lo <= mid <= hi && InOne(t, last, mid, hi, b)
    ensures (m - Cells(t, last, lo, mid)) - CellsIn(b, mid, hi) == m - Cells(t, last, lo, hi)
  {
    hide Cells, CellsIn, InOne;
    RemovedBoth(m, Cells(t, last, lo, mid), CellsIn(b, mid, hi));
    CellsJoin(t, last, lo, mid, hi, b);
  }

  lemma RemovedBoth<E>(m: map<(BlockId, nat), E>, a: set<(BlockId, nat)>, b: set<(BlockId, nat)>)
    ensures (m - a) - b == m - (a + b)
  {
  }

  lemma CellsJoin(t: Table, last: int, lo: nat, mid: nat, hi: nat, b: BlockId)
    requires lo <= mid <= hi && InOne(t, last, mid, hi, b)
    ensures Cells(t, last, lo, hi) == Cells(t, last, lo, mid) + CellsIn(b, mid, hi)
  {
    hide BlockNumbered, Offset, Ord;
    forall i | mid <= i < hi ensures Cell(t, last, i) == (b, Offset(i)) {
    }
  }

  lemma HeadBeforeTail(head: nat, tail: nat)
    requires head <= tail
    ensures Ord(head) <= LastNumber(tail) + 1
    ensures forall i :: head <= i < tail ==> Ord(head) <= Ord(i) <= LastNumber(tail)
    ensures Offset(tail) != 0 ==> Ord(head) <= LastNumber(tail)
  {
  }

  /** Where the block ends, and whether it is the last. */
  lemma StopIs(
      t: Table, tailIndex: nat, lo: nat, count: nat, links: map<BlockId, Option<BlockId>>, startBlock: Option<BlockId>,
      blocks: seq<BlockId>, current: nat, number: int, tailBlock: Option<BlockId>, stop: int)
    requires Ready(t, tailIndex, lo, count, links, startBlock, blocks) && lo <= LastNumber(tailIndex) + 1
    requires Reached(t, tailIndex, count, startBlock, blocks, current, number, tailBlock)
    requires tailIndex <= current <= tailIndex + count && number <= LastNumber(tailIndex + count)
    requires stop == if tailIndex + count < Base(Ord(current)) + BLOCK_SIZE then tailIndex + count else Base(Ord(current)) + BLOCK_SIZE
    ensures current <= stop <= tailIndex + count && stop <= Base(Ord(current) + 1) && (current < stop ==> tailBlock.Some?)
    ensures var end := LastNumber(tailIndex + count);
      && (tailBlock == Latest(startBlock, blocks) <==> number == end)
      && (if number == end then stop == tailIndex + count else stop < tailIndex + count && Ord(stop) == number + 1)
  {
    hide BlockNumbered;
  }

  lemma NextIs(
      t: Table, tailIndex: nat, lo: nat, count: nat, links: map<BlockId, Option<BlockId>>, startBlock: Option<BlockId>,
      blocks: seq<BlockId>, current: nat, number: int, tailBlock: Option<BlockId>, stop: nat)
    requires Ready(t, tailIndex, lo, count, links, startBlock, blocks)
    requires Reached(t, tailIndex, count, startBlock, blocks, current, number, tailBlock)
    requires number < LastNumber(tailIndex + count) && stop < tailIndex + count && Ord(stop) == number + 1
    ensures tailBlock.Some? && tailBlock.value in links
    ensures Reached(t, tailIndex, count, startBlock, blocks, stop, number + 1, links[tailBlock.value])
  {
    hide BlockNumbered;
  }

  lemma Distinct(
      t: Table, tailIndex: nat, lo: nat, count: nat, links: map<BlockId, Option<BlockId>>, startBlock: Option<BlockId>,
      blocks: seq<BlockId>, current: nat, number: int, tailBlock: Option<BlockId>)
    requires Ready(t, tailIndex, lo, count, links, startBlock, blocks)
    requires Reached(t, tailIndex, count, startBlock, blocks, current, number, tailBlock) && tailIndex <= current < tailIndex + count
    ensures var end := LastNumber(tailIndex + count);
      && tailBlock == Some(BlockNumbered(t, end, Ord(current))) && Ord(current) == number
      && Apart(t, end, lo)
  {
    hide BlockNumbered;
  }

  lemma PlacedMore<E>(
      prior: map<(BlockId, nat), E>, before: map<(BlockId, nat), E>, memory: map<(BlockId, nat), E>, t: Table, end: int, head: nat,
      tail: nat, current: nat, stop: nat, b: BlockId, items: seq<E>)
    requires Placed(prior, before, t, end, head, tail, current, items) && head <= tail <= current < stop <= tail + |items|
    requires stop <= Base(Ord(current) + 1) && Ord(current) <= end && b == BlockNumbered(t, end, Ord(current))
    requires Apart(t, end, Ord(head))
    requires forall i :: current <= i < stop ==> (b, Offset(i)) in memory && memory[(b, Offset(i))] == items[i - tail]
    requires forall c :: c in before && Before(c, b, Offset(current)) ==> c in memory && memory[c] == before[c]
    ensures Placed(prior, memory, t, end, head, tail, stop, items)
  {
    hide BlockNumbered;
    forall i | head <= i < stop
      ensures i < current ==> Before(Cell(t, end, i), b, Offset(current))
      ensures i >= current ==> Cell(t, end, i) == (b, Offset(i))
    {
    }
  }

  /** Items are built at indices current to reached of block b, and no other cell has changed. */
  ghost predicate BlockFilled<E>(
      before: map<(BlockId, nat), E>, memory: map<(BlockId, nat), E>, b: BlockId, current: nat, reached: nat, start: nat, items: seq<E>)
    requires start <= current <= reached <= start + |items|
  {
    && (forall i :: current <= i < reached ==> (b, Offset(i)) in memory && memory[(b, Offset(i))] == items[i - start])
    && (forall c :: c in before && (current < reached ==> Before(c, b, Offset(current))) ==> c in memory && memory[c] == before[c])
    && AgreeOutside(before, memory, CellsIn(b, current, reached)) && (current == reached ==> memory == before)
  }

  lemma NoneFilled<E>(before: map<(BlockId, nat), E>, b: BlockId, current: nat, start: nat, items: seq<E>)
    requires start <= current <= start + |items|
    ensures BlockFilled(before, before, b, current, current, start, items)
  {
  }

  lemma OneFilled<E>(
      before: map<(BlockId, nat), E>, memory: map<(BlockId, nat), E>, b: BlockId, current: nat, reached: nat, start: nat, items: seq<E>)
    requires start <= current <= reached < start + |items| && reached + 1 <= Base(Ord(current) + 1)
    requires BlockFilled(before, memory, b, current, reached, start, items)
    ensures BlockFilled(before, memory[(b, Offset(reached)) := items[reached - start]], b, current, reached + 1, start, items)
  {
    InBlock(current, reached + 1);
    hide Offset, Ord, Base;
    OneMoreCell(b, current, reached);
    hide CellsIn;
  }

  /** The filling has come to `current`: what is placed, and nothing else has changed. */
  ghost predicate Building<E>(
      t: Table, head: nat, tailIndex: nat, items: seq<E>, links: map<BlockId, Option<BlockId>>, startBlock: Option<BlockId>,
      blocks: seq<BlockId>, prior: map<(BlockId, nat), E>, memory: map<(BlockId, nat), E>, current: nat)
  {
    var end := LastNumber(tailIndex + |items|);
    && head <= tailIndex <= current <= tailIndex + |items| && Ready(t, tailIndex, Ord(head), |items|, links, startBlock, blocks)
    && Placed(prior, memory, t, end, head, tailIndex, current, items)
    && AgreeOutside(prior, memory, Cells(t, end, tailIndex, current))
  }

  /** The next block can be filled as far as `stop`, and is the one for it. */
  lemma NextStop<E>(
      t: Table, head: nat, tailIndex: nat, items: seq<E>, links: map<BlockId, Option<BlockId>>, startBlock: Option<BlockId>,
      blocks: seq<BlockId>, prior: map<(BlockId, nat), E>, memory: map<(BlockId, nat), E>, current: nat, number: int,
      tailBlock: Option<BlockId>, stop: int)
    requires Building(t, head, tailIndex, items, links, startBlock, blocks, prior, memory, current)
    requires Reached(t, tailIndex, |items|, startBlock, blocks, current, number, tailBlock) && number <= LastNumber(tailIndex + |items|)
    requires stop == if tailIndex + |items| < Base(Ord(current)) + BLOCK_SIZE then tailIndex + |items| else Base(Ord(current)) + BLOCK_SIZE
    ensures current <= stop <= tailIndex + |items| && stop <= Base(Ord(current) + 1) && (current < stop ==> tailBlock.Some?)
    ensures var end := LastNumber(tailIndex + |items|);
      && (tailBlock == Latest(startBlock, blocks) <==> number == end)
      && (if number == end then stop == tailIndex + |items| else stop < tailIndex + |items| && Ord(stop) == number + 1)
      && (current < stop ==>
            && Ord(current) == number <= end && tailBlock == Some(BlockNumbered(t, end, Ord(current)))
            && Apart(t, end, Ord(head)))
  {
    HeadBeforeTail(head, tailIndex);
    hide EntryOf, BlockNumbered, Placed, Ready, Reached, LastNumber, Ord, Offset, Cell, Latest, Chained, Linked, Cells,
      AgreeOutside, Apart;
    StopIs(t, tailIndex, Ord(head), |items|, links, startBlock, blocks, current, number, tailBlock, stop);
    if current < stop { Distinct(t, tailIndex, Ord(head), |items|, links, startBlock, blocks, current, number, tailBlock); }
  }

  /** Filling a block, wholly or in part, adds to what is placed, and touches only the cells of what it builds. */
  lemma FilledMore<E>(
      t: Table, head: nat, tailIndex: nat, items: seq<E>, links: map<BlockId, Option<BlockId>>, startBlock: Option<BlockId>,
      blocks: seq<BlockId>, prior: map<(BlockId, nat), E>, before: map<(BlockId, nat), E>, memory: map<(BlockId, nat), E>,
      current: nat, reached: nat, stop: nat, b: BlockId)
    requires Building(t, head, tailIndex, items, links, startBlock, blocks, prior, before, current)
    requires current <= reached <= stop <= tailIndex + |items| && current < stop <= Base(Ord(current) + 1)
    requires var end := LastNumber(tailIndex + |items|);
      Ord(current) <= end && b == BlockNumbered(t, end, Ord(current)) && Apart(t, end, Ord(head))
    requires BlockFilled(before, memory, b, current, reached, tailIndex, items)
    ensures Building(t, head, tailIndex, items, links, startBlock, blocks, prior, memory, reached)
    ensures reached < stop ==> Ord(reached) == Ord(current)
  {
    hide BlockNumbered, Cell, Placed, Before, Offset, Apart, Ready, LastNumber;
    SameBlockUpTo(current, stop);
    hide Ord;
    var end := LastNumber(tailIndex + |items|);
    if current < reached { PlacedMore(prior, before, memory, t, end, head, tailIndex, current, reached, b, items); }
    CellsJoin(t, end, tailIndex, current, reached, b);
    hide Cells, CellsIn;
  }

  lemma SameBlockUpTo(current: nat, stop: nat)
    requires stop <= Base(Ord(current) + 1)
    ensures forall i :: current <= i < stop ==> Ord(i) == Ord(current)
  {
  }

  lemma FurtherInBlock(
      t: Table, tailIndex: nat, count: nat, startBlock: Option<BlockId>, blocks: seq<BlockId>, current: nat, number: int,
      tailBlock: Option<BlockId>, reached: nat)
    requires Reached(t, tailIndex, count, startBlock, blocks, current, number, tailBlock) && current <= reached < tailIndex + count
    requires Ord(reached) == number
    ensures Reached(t, tailIndex, count, startBlock, blocks, reached, Ord(reached), tailBlock)
  {
    hide BlockNumbered;
  }

  /** Building, and destroying, begins in the block of the tail's number. */
  lemma BeginsAt(
      t: Table, head: nat, tailIndex: nat, count: nat, links: map<BlockId, Option<BlockId>>, startBlock: Option<BlockId>,
      blocks: seq<BlockId>, constructedStop: nat, lastBlock: Option<BlockId>)
    requires head <= tailIndex <= constructedStop < tailIndex + count
    requires Ready(t, tailIndex, Ord(head), count, links, startBlock, blocks)
    requires Reached(t, tailIndex, count, startBlock, blocks, constructedStop, Ord(constructedStop), lastBlock)
    ensures Walking(t, tailIndex, Ord(head), count, links, startBlock, blocks, tailIndex,
                    if Offset(tailIndex) == 0 then At(blocks, 0) else startBlock, constructedStop, lastBlock)
    ensures Cells(t, LastNumber(tailIndex + count), tailIndex, tailIndex) == {}
  {
    HeadBeforeTail(head, tailIndex);
    hide BlockNumbered;
  }

  /** The walk that destroys has come to `current`, in `block`; it ends at constructedStop, in lastBlock. */
  ghost predicate Walking(
      t: Table, tailIndex: nat, lo: nat, count: nat, links: map<BlockId, Option<BlockId>>, startBlock: Option<BlockId>,
      blocks: seq<BlockId>, current: nat, block: Option<BlockId>, constructedStop: nat, lastBlock: Option<BlockId>)
  {
    && Ready(t, tailIndex, lo, count, links, startBlock, blocks)
    && lo <= LastNumber(tailIndex) + 1 && (Offset(tailIndex) != 0 ==> lo <= LastNumber(tailIndex))
    && tailIndex <= current <= constructedStop < tailIndex + count
    && Reached(t, tailIndex, count, startBlock, blocks, current, Ord(current), block)
    && Reached(t, tailIndex, count, startBlock, blocks, constructedStop, Ord(constructedStop), lastBlock)
  }

  /** How far to destroy in a block, and whether it is the last; if not, where the next one begins. */
  lemma DestroyStop(
      t: Table, tailIndex: nat, lo: nat, count: nat, links: map<BlockId, Option<BlockId>>, startBlock: Option<BlockId>,
      blocks: seq<BlockId>, current: nat, block: Option<BlockId>, constructedStop: nat, lastBlock: Option<BlockId>, stop: int)
    requires Walking(t, tailIndex, lo, count, links, startBlock, blocks, current, block, constructedStop, lastBlock)
    requires stop == if constructedStop < Base(Ord(current)) + BLOCK_SIZE then constructedStop else Base(Ord(current)) + BLOCK_SIZE
    ensures block.Some? && current <= stop <= constructedStop
    ensures InOne(t, LastNumber(tailIndex + count), current, stop, block.value)
    ensures block == lastBlock ==> stop == constructedStop
    ensures block != lastBlock ==>
              && current < stop && block.value in links
              && Walking(t, tailIndex, lo, count, links, startBlock, blocks, stop, links[block.value], constructedStop, lastBlock)
  {
    var end := LastNumber(tailIndex + count);
    assert end >= Ord(constructedStop) >= Ord(current) && lo <= Ord(current);
    if Ord(current) < Ord(constructedStop) {
      assert BlockNumbered(t, end, Ord(current)) != BlockNumbered(t, end, Ord(constructedStop));
      assert stop == Base(Ord(current) + 1) && Ord(stop) == Ord(current) + 1;
      hide BlockNumbered;
      NextIs(t, tailIndex, lo, count, links, startBlock, blocks, current, Ord(current), block, stop);
    } else {
      hide BlockNumbered;
    }
    SameBlockUpTo(current, stop);
  }

  /** What was there before is there still, and nothing else. */
  lemma Destroyed<E>(
      prior: map<(BlockId, nat), E>, built: map<(BlockId, nat), E>, memory: map<(BlockId, nat), E>, t: Table, t': Table, head: nat,
      tail: nat, count: nat, reached: nat, items: seq<E>)
    requires var last, end := LastNumber(tail), LastNumber(tail + count);
      && head <= tail <= reached <= tail + count && Apart(t', end, Ord(head))
      && Placed(prior, built, t', end, head, tail, reached, items) && AgreeOutside(prior, built, Cells(t', end, tail, reached))
      && memory == built - Cells(t', end, tail, reached)
      && (forall i :: head <= i < tail ==> Cell(t', end, i) == Cell(t, last, i))
    ensures forall c :: c in memory ==> c in prior && memory[c] == prior[c]
    ensures forall i :: head <= i < tail ==>
              Cell(t, LastNumber(tail), i) in prior && Cell(t, LastNumber(tail), i) in memory
    ensures Found(t, LastNumber(tail), memory, head, tail) == Found(t, LastNumber(tail), prior, head, tail)
  {
    var end := LastNumber(tail + count);
    forall i | head <= i < tail ensures Cell(t', end, i) !in Cells(t', end, tail, reached) {
      forall j | tail <= j < reached ensures Cell(t', end, j) != Cell(t', end, i) {
        CellsDiffer(t', end, Ord(head), i, j);
      }
    }
    hide Cell, Cells;
  }

  lemma CellsDiffer(t: Table, end: int, lo: int, i: nat, j: nat)
    requires Apart(t, end, lo) && lo <= Ord(i) && i < j && Ord(j) <= end
    ensures Cell(t, end, i) != Cell(t, end, j)
  {
    hide BlockNumbered;
  }

  /** All stored; something could not be allocated; a constructor threw. */
  datatype Outcome = Stored | NoRoom | Threw

  class ImplicitProducer<E> {
    var headIndex: nat
    var tailIndex: nat
    var tailBlock: Option<BlockId>
    var table: Table
    var links: map<BlockId, Option<BlockId>>      // each block's next
    var memory: map<(BlockId, nat), E>            // elements by block and offset
    var requisitioned: seq<BlockId>               // every block obtained, in order
    var givenBack: seq<BlockId>                   // every block handed to add_block_to_free_list, in order

    /** Every number from the head's to the tail's has a block of its own, and every element is in its place. */
    ghost predicate Valid()
      reads this
    {
      var last, lo := LastNumber(tailIndex), Ord(headIndex);
      && headIndex <= tailIndex && TableOk(table) && last - lo < |table.index| && Held(table, last, lo, last)
      && Apart(table, last, lo) && (forall i :: headIndex <= i < tailIndex ==> Cell(table, last, i) in memory)
      && (Offset(tailIndex) != 0 ==> tailBlock == Some(BlockNumbered(table, last, last)))
    }

    /** What consumers will find, oldest first. */
    ghost function Contents(): seq<E>
      reads this
      requires Valid()
    {
      Found(table, LastNumber(tailIndex), memory, headIndex, tailIndex)
    }

    constructor ()
      ensures Valid() && Contents() == [] && requisitioned == [] && givenBack == []
    {
      headIndex, tailIndex, tailBlock := 0, 0, None;
      table := Table(seq(IMPLICIT_INITIAL_INDEX_SIZE, _ => Entry(INVALID_BLOCK_BASE, None)),
                     seq(IMPLICIT_INITIAL_INDEX_SIZE, (i: nat) => i), IMPLICIT_INITIAL_INDEX_SIZE - 1);
      links, memory, requisitioned, givenBack := map[], map[], [], [];
    }

    method NewBlockIndex(chance: Chance) returns (ok: bool)
      requires TableOk(table)
      modifies this`table
      ensures ok == chance.grows && table == if ok then Enlarged(old(table), chance.garbage) else old(table)
    {
      if !chance.grows {
        return false;
      }
      var prev := table;
      var index: seq<EntryId> := [];
      var i := 0;
      while i < |prev.index|
        invariant i <= |prev.index| && index == seq(i, (j: nat) => Moved(prev, j))
      {
        index := index + [EntryAfter(prev, i + 1)];
        i := i + 1;
      }
      i := 0;
      while i < |prev.index|
        invariant i <= |prev.index| && index == seq(|prev.index| + i, (j: nat) => Moved(prev, j))
      {
        index := index + [|prev.entries| + i];
        i := i + 1;
      }
      table := Table(prev.entries + seq(|prev.index|, _ => Entry(INVALID_BLOCK_BASE, chance.garbage)), index,
                     Ring(|prev.index| - 1, 2 * |prev.index|));
      return true;
    }

    /** insert_block_index_entry: the entry taken for number q, or nothing when there is no room and no growing. */
    method InsertBlockIndexEntry(q: int, chance: Chance, ghost last: int, ghost lo: nat) returns (entry: Option<EntryId>)
      requires TableOk(table) && q == last + 1 && last - lo < |table.index| && Held(table, last, lo, last)
      modifies this`table
      ensures TableOk(table)
      ensures entry.None? ==> table == old(table) && !chance.grows
      ensures entry.Some? ==>
                && q - lo < |table.index| && Same(old(table), last, table, q, lo, last)
                && entry.value == EntryAfter(table, 0) < |table.entries| && EntryOf(table, q, q).key == Base(q)
    {
      hide Ring, EntryAfter, Enlarged, TableOk;
      EntryIs(table, last, q);
      var e := EntryAfter(table, 1);
      if table.entries[e].key == INVALID_BLOCK_BASE || table.entries[e].value.None? {
        FreeSlotIsApart(table, last, lo);
      } else {
        var grown := NewBlockIndex(chance);
        if !grown {
          return None;
        }
        GrowthKeeps(old(table), chance.garbage, last, lo);
        EntryIs(table, last, q);
        e := EntryAfter(table, 1);
      }
      TakeKeeps(table, last, lo);
      table := Taken(table, q);
      EntryIs(table, q, q);
      return Some(e);
    }

    method RewindBlockIndexTail()
      requires TableOk(table)
      modifies this`table
      ensures table == Rewound(old(table))
    {
      table := table.(tail := Ring(table.tail - 1, |table.index|));
    }

    /** get_block_index_entry_for_index, the offset being counted from the tail's key. */
    method GetBlockIndexEntry(q: int, ghost last: int) returns (e: EntryId)
      requires TableOk(table) && EntryOf(table, last, last).key == Base(last)
      ensures e == EntryAfter(table, q - last) < |table.entries|
    {
      EntryIs(table, last, last);
      EntryIs(table, last, q);
      var tailBase := table.entries[EntryAfter(table, 0)].key;
      var offset := (Base(q) - tailBase) / BLOCK_SIZE;
      e := EntryAfter(table, offset);
    }

    method AddBlocksToFreeList(first: Option<BlockId>, ghost blocks: seq<BlockId>)
      requires Chained(links, blocks) && first == At(blocks, 0)
      modifies this`givenBack
      ensures givenBack == old(givenBack) + blocks
    {
      var block := first;
      ghost var i := 0;
      while block.Some?
        invariant i <= |blocks| && block == At(blocks, i) && givenBack == old(givenBack) + blocks[..i]
        decreases |blocks| - i
      {
        var next := links[block.value];
        givenBack := givenBack + [block.value];
        block := next;
        i := i + 1;
      }
      assert blocks[..i] == blocks;
    }

    /** Takes the blocks from first on out of the index again and gives them back. */
    method UndoBlocks(first: Option<BlockId>, startBlock: Option<BlockId>, ghost blocks: seq<BlockId>, ghost lo: nat)
      requires var last := LastNumber(tailIndex);
        && TableOk(table) && lo <= last + 1 && last + |blocks| - lo < |table.index|
        && Keyed(table, last + |blocks|, last, |blocks|)
      requires Chained(links, blocks) && first == At(blocks, 0)
      modifies this`table, this`tailBlock, this`givenBack
      ensures var last := LastNumber(tailIndex);
        TableOk(table) && |table.index| == |old(table).index| && Same(old(table), last + |blocks|, table, last, lo, last)
      ensures givenBack == old(givenBack) + blocks && tailBlock == startBlock
    {
      hide EntryAfter, EntryOf, Rewound, TableOk, WithValue;
      var number := LastNumber(tailIndex);
      var block := first;
      ghost var last, i, n := number, 0, |blocks|;
      while block.Some?
        invariant i <= n && block == At(blocks, i) && number == last + i && givenBack == old(givenBack)
        invariant TableOk(table) && |table.index| == |old(table).index|
        invariant Same(old(table), last + n, table, last + n - i, lo, last) && Keyed(table, last + n - i, last, n)
        decreases n - i
      {
        number := number + 1;
        UndoOne(table, last + n - i, last, n, number, lo);
        var e := GetBlockIndexEntry(number, last + n - i);
        ghost var before := table;
        table := WithValue(table, e, None);
        RewindBlockIndexTail();
        SameThrough(old(table), last + n, before, last + n - i, table, last + n - i - 1, lo, last);
        block := links[block.value];
        i := i + 1;
      }
      AddBlocksToFreeList(first, blocks);
      tailBlock := startBlock;
    }

    /** One new block, indexed under number and not yet linked to; nothing if there is no room for it or no block. */
    method AllocateBlock(number: int, chance: Chance, ghost lo: nat) returns (block: Option<BlockId>)
      requires TableOk(table) && number - 1 - lo < |table.index| && Held(table, number - 1, lo, number - 1) && lo <= number
      modifies this`table, this`links, this`requisitioned
      ensures TableOk(table)
      ensures block.None? ==>
                && number - 1 - lo < |table.index| && Same(old(table), number - 1, table, number - 1, lo, number - 1)
                && links == old(links) && requisitioned == old(requisitioned) && !Lucky(chance)
      ensures block.Some? ==>
                && !chance.full
                && number - lo < |table.index| && Same(old(table), number - 1, table, number, lo, number - 1)
                && EntryOf(table, number, number) == Entry(Base(number), block) && block == chance.block
                && links == old(links)[block.value := None] && requisitioned == old(requisitioned) + [block.value]
    {
      hide EntryAfter, EntryOf, TableOk, Held;
      if chance.full {
        return None;
      }
      var entry := InsertBlockIndexEntry(number, chance, number - 1, lo);
      if entry.None? {
        return None;
      }
      ghost var taken := table;
      if chance.block.None? {
        TakeUndone(old(table), taken, number, lo);
        RewindBlockIndexTail();
        table := WithValue(table, entry.value, None);
        return None;
      }
      block := chance.block;
      requisitioned := requisitioned + [block.value];
      links := links[block.value := None];
      ValueKeeps(taken, number, number, block, lo, number);
      table := WithValue(table, entry.value, block);
      SameThrough(old(table), number - 1, taken, number, table, number, lo, number - 1);
    }

    /**
     * The first half of enqueue_bulk: every block the new elements need, indexed under its number and linked to the one
     * before it; or none, everything as before.
     */
    method AllocateBlocks(count: nat, chances: seq<Chance>) returns (ok: bool, first: Option<BlockId>, ghost blocks: seq<BlockId>)
      requires Valid() && |chances| >= Needed(tailIndex, count) && ChancesOk(chances, table, LastNumber(tailIndex), Ord(headIndex))
      modifies this`table, this`links, this`tailBlock, this`requisitioned, this`givenBack
      ensures var last, lo := LastNumber(tailIndex), Ord(headIndex);
        && requisitioned == old(requisitioned) + blocks && TableOk(table) && Chosen(chances, blocks)
        && (!ok ==>
              && Same(old(table), last, table, last, lo, last) && last - lo < |table.index|
              && tailBlock == old(tailBlock) && givenBack == old(givenBack) + blocks
              && |blocks| < Needed(tailIndex, count) && !Lucky(chances[|blocks|]))
        && (ok ==>
              && |blocks| == Needed(tailIndex, count) && last + |blocks| - lo < |table.index|
              && Same(old(table), last, table, last + |blocks|, lo, last) && Listed(table, last + |blocks|, last, blocks)
              && Chained(links, blocks) && first == At(blocks, 0) && Linked(links, old(tailBlock), tailIndex, blocks)
              && tailBlock == Latest(old(tailBlock), blocks) && givenBack == old(givenBack)
              && forall i :: 0 <= i < |blocks| ==> !chances[i].full && chances[i].block.Some?)
    {
      hide EntryAfter, EntryOf, TableOk, Held, Listed, Same, Chained, Linked, BlockNumbered;
      var startBlock := tailBlock;
      var number, left, j := LastNumber(tailIndex), Needed(tailIndex, count), 0;
      ghost var last, lo := LastNumber(tailIndex), Ord(headIndex);
      first, blocks := None, [];
      NothingListed(table, last, lo, links, startBlock, tailIndex);
      while left > 0
        invariant left >= 0 && j == |blocks| && left + j == Needed(tailIndex, count) && number == last + j
        invariant TableOk(table) && number - lo < |table.index|
        invariant Same(old(table), last, table, number, lo, last) && Listed(table, number, last, blocks)
        invariant Chained(links, blocks) && first == At(blocks, 0) && Linked(links, startBlock, tailIndex, blocks)
        invariant Chosen(chances, blocks) && tailBlock == Latest(startBlock, blocks)
        invariant requisitioned == old(requisitioned) + blocks && givenBack == old(givenBack)
        invariant forall i :: 0 <= i < |blocks| ==> !chances[i].full && chances[i].block.Some?
      {
        left := left - 1;
        number := number + 1;
        AllHeld(old(table), last, table, number - 1, lo, blocks);
        ghost var before, linked := table, links;
        ChosenDiffer(chances, old(table), last, lo, blocks);
        var newBlock := AllocateBlock(number, chances[j], lo);
        if newBlock.None? {
          CarriedOver(old(table), last, before, number - 1, table, number - 1, lo, blocks);
          ListedIsKeyed(table, number - 1, last, blocks);
          before := table;
          UndoBlocks(first, startBlock, blocks, lo);
          SameThrough(old(table), last, before, number - 1, table, last, lo, last);
          return false, None, blocks;
        }
        CarriedOver(old(table), last, before, number - 1, table, number, lo, blocks);
        ListedOneMore(table, number, last, blocks, newBlock.value);
        LinkedOneMore(linked, startBlock, tailIndex, blocks, newBlock.value);
        if Offset(tailIndex) != 0 || first.Some? {
          links := links[tailBlock.value := newBlock];
        }
        tailBlock := newBlock;
        if first.None? {
          first := newBlock;
        }
        blocks := blocks + [newBlock.value];
        j := j + 1;
      }
      ok := true;
    }

    /** Constructs the elements of indices current to stop in the tail block, as far as the constructor that throws. */
    method FillBlock(items: seq<E>, start: nat, current: nat, stop: nat, throwAt: nat) returns (reached: nat)
      requires start <= current <= stop <= start + |items| && stop <= Base(Ord(current) + 1) && current <= start + throwAt
      requires current < stop ==> tailBlock.Some?
      modifies this`memory
      ensures reached == if start + throwAt < stop then start + throwAt else stop
      ensures if current < stop then BlockFilled(old(memory), memory, tailBlock.value, current, reached, start, items)
              else memory == old(memory)
    {
      hide *;
      reached := current;
      if current < stop { NoneFilled(memory, tailBlock.value, current, start, items); }
      while reached != stop && reached != start + throwAt
        invariant current <= reached <= stop && reached <= start + throwAt
        invariant if current < stop then BlockFilled(old(memory), memory, tailBlock.value, current, reached, start, items)
                  else memory == old(memory)
        decreases stop - reached
      {
        OneFilled(old(memory), memory, tailBlock.value, current, reached, start, items);
        memory := memory[(tailBlock.value, Offset(reached)) := items[reached - start]];
        reached := reached + 1;
      }
    }

    /** Fills the tail block, which is that of number `number`, as far as it, the items, or their constructors go. */
    method FillNext(
        items: seq<E>, current: nat, throwAt: nat, ghost prior: map<(BlockId, nat), E>, ghost startBlock: Option<BlockId>,
        ghost blocks: seq<BlockId>, ghost number: int)
      returns (reached: nat, threw: bool)
      requires Building(table, headIndex, tailIndex, items, links, startBlock, blocks, prior, memory, current)
      requires Reached(table, tailIndex, |items|, startBlock, blocks, current, number, tailBlock)
      requires number <= LastNumber(tailIndex + |items|) && tailIndex <= current <= tailIndex + throwAt
      modifies this`memory
      ensures Building(table, headIndex, tailIndex, items, links, startBlock, blocks, prior, memory, reached)
      ensures current <= reached <= tailIndex + throwAt
      ensures var end := LastNumber(tailIndex + |items|);
        && (tailBlock == Latest(startBlock, blocks) <==> number == end)
        && (threw ==> reached == tailIndex + throwAt < tailIndex + |items| && Ord(reached) == number)
        && (!threw ==>
              if number == end then reached == tailIndex + |items|
              else reached < tailIndex + |items| && Ord(reached) == number + 1)
    {
      hide *;
      ghost var t, head, tail, before := table, headIndex, tailIndex, memory;
      var stop := Base(Ord(current)) + BLOCK_SIZE;
      if tailIndex + |items| < stop {
        stop := tailIndex + |items|;
      }
      NextStop(t, head, tail, items, links, startBlock, blocks, prior, memory, current, number, tailBlock, stop);
      reached := FillBlock(items, tailIndex, current, stop, throwAt);
      threw := reached != stop;
      if current < stop {
        FilledMore(t, head, tail, items, links, startBlock, blocks, prior, before, memory, current, reached, stop, tailBlock.value);
      }
    }

    /** The second half: walks the blocks by their links, filling each, until all are filled or a constructor throws. */
    method FillBlocks(items: seq<E>, throwAt: nat, first: Option<BlockId>, startBlock: Option<BlockId>, ghost blocks: seq<BlockId>)
      returns (reached: nat, threw: bool)
      requires Building(table, headIndex, tailIndex, items, links, startBlock, blocks, memory, memory, tailIndex)
      requires first == At(blocks, 0) && tailBlock == Latest(startBlock, blocks)
      modifies this`memory, this`tailBlock
      ensures threw <==> throwAt < |items|
      ensures reached == tailIndex + if threw then throwAt else |items|
      ensures !threw ==> tailBlock == Latest(startBlock, blocks)
      ensures threw ==> Reached(table, tailIndex, |items|, startBlock, blocks, reached, Ord(reached), tailBlock)
      ensures Building(table, headIndex, tailIndex, items, links, startBlock, blocks, old(memory), memory, reached)
    {
      hide EntryOf, BlockNumbered, Placed, Ready, Reached, LastNumber, Ord, Offset, Cell, Latest, Chained, Linked, Cells, AgreeOutside;
      var endBlock, current := tailBlock, tailIndex;
      ghost var end, number := LastNumber(tailIndex + |items|), LastNumber(tailIndex);
      tailBlock := startBlock;
      if Offset(tailIndex) == 0 && first.Some? {
        tailBlock := first;
        number := number + 1;
      }
      BeginsReady(table, tailIndex, Ord(headIndex), |items|, links, startBlock, blocks);
      while true
        invariant number <= end && tailIndex <= current <= tailIndex + throwAt
        invariant Reached(table, tailIndex, |items|, startBlock, blocks, current, number, tailBlock)
        invariant Building(table, headIndex, tailIndex, items, links, startBlock, blocks, old(memory), memory, current)
        decreases end - number
      {
        reached, threw := FillNext(items, current, throwAt, old(memory), startBlock, blocks, number);
        if threw {
          FurtherInBlock(table, tailIndex, |items|, startBlock, blocks, current, number, tailBlock, reached);
          return;
        }
        if tailBlock == endBlock {
          break;
        }
        NextIs(table, tailIndex, Ord(headIndex), |items|, links, startBlock, blocks, current, number, tailBlock, reached);
        current := reached;
        tailBlock := links[tailBlock.value];
        number := number + 1;
      }
    }

    /** Destroys the elements of indices current to stop in a block. */
    method DestroyIn(block: BlockId, current: nat, stop: nat)
      requires current <= stop
      modifies this`memory
      ensures memory == old(memory) - CellsIn(block, current, stop)
    {
      var i := current;
      assert CellsIn(block, current, current) == {};
      while i != stop
        invariant current <= i <= stop && memory == old(memory) - CellsIn(block, current, i)
        decreases stop - i
      {
        OneMoreCell(block, current, i);
        RemovedBoth(old(memory), CellsIn(block, current, i), {(block, Offset(i))});
        memory := memory - {(block, Offset(i))};
        i := i + 1;
      }
    }

    /** After a constructor has thrown: destroys what was built up to constructedStop, walking the blocks again. */
    method DestroyBlocks(
        constructedStop: nat, first: Option<BlockId>, startBlock: Option<BlockId>, ghost count: nat, ghost blocks: seq<BlockId>)
      requires headIndex <= tailIndex <= constructedStop < tailIndex + count && first == At(blocks, 0)
      requires Ready(table, tailIndex, Ord(headIndex), count, links, startBlock, blocks)
      requires Reached(table, tailIndex, count, startBlock, blocks, constructedStop, Ord(constructedStop), tailBlock)
      modifies this`memory
      ensures memory == old(memory) - Cells(table, LastNumber(tailIndex + count), tailIndex, constructedStop)
    {
      hide *;
      var lastBlockEnqueued, block, current := tailBlock, startBlock, tailIndex;
      ghost var t, tail, lo, end := table, tailIndex, Ord(headIndex), LastNumber(tailIndex + count);
      if Offset(tailIndex) == 0 {
        block := first;
      }
      BeginsAt(t, headIndex, tail, count, links, startBlock, blocks, constructedStop, tailBlock);
      while true
        invariant tail <= current <= constructedStop
        invariant Walking(t, tail, lo, count, links, startBlock, blocks, current, block, constructedStop, lastBlockEnqueued)
        invariant memory == old(memory) - Cells(t, end, tail, current)
        decreases constructedStop - current
      {
        var stop := Base(Ord(current)) + BLOCK_SIZE;
        if constructedStop < stop {
          stop := constructedStop;
        }
        DestroyStop(t, tail, lo, count, links, startBlock, blocks, current, block, constructedStop, lastBlockEnqueued, stop);
        DestroyIn(block.value, current, stop);
        DestroyedMore(old(memory), t, end, tail, current, stop, block.value);
        if block == lastBlockEnqueued {
          break;
        }
        block := links[block.value];
        current := stop;
      }
    }

    /**
     * enqueue_bulk: all items are appended in order; or, when anything cannot be allocated or the constructor of item
     * throwAt throws, the contents are what they were, nothing built is left, and each block obtained on the way has been
     * given back once.
     */
    method EnqueueBulk(items: seq<E>, chances: seq<Chance>, throwAt: nat) returns (outcome: Outcome)
      requires Valid() && |chances| >= Needed(tailIndex, |items|)
      requires ChancesOk(chances, table, LastNumber(tailIndex), Ord(headIndex))
      modifies this
      ensures Valid() && headIndex == old(headIndex)
      ensures outcome.Stored? ==>
                && |items| <= throwAt && tailIndex == old(tailIndex) + |items| && Contents() == old(Contents()) + items
                && givenBack == old(givenBack)
      ensures !outcome.Stored? ==>
                && tailIndex == old(tailIndex) && tailBlock == old(tailBlock) && Contents() == old(Contents())
                && exists taken: seq<BlockId> ::
                     requisitioned == old(requisitioned) + taken && givenBack == old(givenBack) + taken
      ensures outcome.Threw? ==> throwAt < |items|
      ensures if outcome.NoRoom? then exists j :: 0 <= j < Needed(old(tailIndex), |items|) && !Lucky(chances[j])
              else forall j :: 0 <= j < Needed(old(tailIndex), |items|) ==> !chances[j].full && chances[j].block.Some?
      ensures !outcome.Stored? ==> forall c :: c in memory ==> c in old(memory) && memory[c] == old(memory)[c]
    {
      hide EntryOf, TableOk, Held, BlockNumbered, Placed, Ready, Apart, ChancesOk, Chosen, Chained, Linked, Listed, Same, Latest,
        Needed, LastNumber, Ord, Offset, Cell, Found, Reached, Cells, AgreeOutside, Rewound, Keyed;
      var startBlock := tailBlock;
      ghost var last, lo, tail := LastNumber(tailIndex), Ord(headIndex), tailIndex;
      NeededIs(tailIndex, |items|);
      var enough, first, blocks := AllocateBlocks(|items|, chances);
      if !enough {
        Restored(old(table), table, headIndex, tailIndex, memory);
        assert 0 <= |blocks| < Needed(tailIndex, |items|) && !Lucky(chances[|blocks|]);
        return NoRoom;
      }
      MadeReady(old(table), table, headIndex, tailIndex, |items|, links, startBlock, blocks, chances, memory, items);
      var reached, threw := FillBlocks(items, throwAt, first, startBlock, blocks);
      if threw {
        ghost var filled, built := table, memory;
        DestroyBlocks(reached, first, startBlock, |items|, blocks);
        ListedIsKeyed(filled, last + |blocks|, last, blocks);
        HeadBeforeTail(headIndex, tailIndex);
        UndoBlocks(first, startBlock, blocks, lo);
        SameThrough(old(table), last, filled, last + |blocks|, table, last, lo, last);
        Destroyed(old(memory), built, memory, old(table), filled, headIndex, tail, |items|, reached, items);
        Restored(old(table), table, headIndex, tailIndex, memory);
        return Threw;
      }
      tailIndex := tailIndex + |items|;
      AllFound(old(table), last, old(memory), table, LastNumber(tailIndex), memory, headIndex, tail, items);
      return Stored;
    }
  }

  lemma NeededIs(tailIndex: nat, count: nat)
    ensures Needed(tailIndex, count) == LastNumber(tailIndex + count) - LastNumber(tailIndex)
  {
  }

  /** After a failure everything in use is found as before. */
  lemma Restored<E>(t: Table, t': Table, head: nat, tail: nat, memory: map<(BlockId, nat), E>)
    requires var last, lo := LastNumber(tail), Ord(head);
      && head <= tail && Same(t, last, t', last, lo, last) && Held(t, last, lo, last) && Apart(t, last, lo)
      && forall i :: head <= i < tail ==> Cell(t, last, i) in memory
    ensures var last, lo := LastNumber(tail), Ord(head);
      && Held(t', last, lo, last) && Apart(t', last, lo)
      && (forall i :: head <= i < tail ==> Cell(t', last, i) in memory)
      && Found(t', last, memory, head, tail) == Found(t, last, memory, head, tail)
      && (Offset(tail) != 0 ==> BlockNumbered(t', last, last) == BlockNumbered(t, last, last))
  {
    HeadBeforeTail(head, tail);
    hide EntryOf;
    forall r | Ord(head) <= r <= LastNumber(tail)
      ensures BlockNumbered(t', LastNumber(tail), r) == BlockNumbered(t, LastNumber(tail), r)
    {
    }
    forall i | head <= i < tail ensures Cell(t', LastNumber(tail), i) == Cell(t, LastNumber(tail), i) {
    }
  }

  ghost predicate Apart(t: Table, last: int, lo: int) {
    forall q, r :: lo <= q < r <= last ==> BlockNumbered(t, last, q) != BlockNumbered(t, last, r)
  }

  /** The first half leaves everything as the second needs it. */
  lemma MadeReady<E>(
      t: Table, t': Table, head: nat, tail: nat, count: nat, links: map<BlockId, Option<BlockId>>, startBlock: Option<BlockId>,
      blocks: seq<BlockId>, chances: seq<Chance>, memory: map<(BlockId, nat), E>, items: seq<E>)
    requires var last, lo, end := LastNumber(tail), Ord(head), LastNumber(tail + count);
      && head <= tail && Held(t, last, lo, last) && Apart(t, last, lo)
      && (Offset(tail) != 0 ==> startBlock == Some(BlockNumbered(t, last, last)))
      && ChancesOk(chances, t, last, lo) && Chosen(chances, blocks) && end == last + |blocks|
      && Same(t, last, t', end, lo, last) && Listed(t', end, last, blocks)
      && Chained(links, blocks) && Linked(links, startBlock, tail, blocks)
      && forall i :: head <= i < tail ==> Cell(t, last, i) in memory
    ensures var last, lo, end := LastNumber(tail), Ord(head), LastNumber(tail + count);
      && Ready(t', tail, lo, count, links, startBlock, blocks) && Held(t', end, lo, end) && Apart(t', end, lo)
      && (forall i :: head <= i < tail ==> Cell(t', end, i) == Cell(t, last, i))
      && (|items| == count ==> Building(t', head, tail, items, links, startBlock, blocks, memory, memory, tail))
      && (Offset(tail + count) != 0 ==> Latest(startBlock, blocks) == Some(BlockNumbered(t', end, end)))
  {
    hide EntryOf, BlockNumbered, Listed, Same, Held, ChancesOk, Chosen, Chained, Linked;
    var last, lo, end := LastNumber(tail), Ord(head), LastNumber(tail + count);
    HeadBeforeTail(head, tail);
    ChosenDiffer(chances, t, last, lo, blocks);
    AllHeld(t, last, t', end, lo, blocks);
    BlocksAre(t, t', last, end, lo, blocks);
    forall i | head <= i < tail ensures Cell(t', end, i) == Cell(t, last, i) {
    }
  }

  lemma BlocksAre(t: Table, t': Table, last: int, end: int, lo: int, blocks: seq<BlockId>)
    requires Same(t, last, t', end, lo, last) && Listed(t', end, last, blocks) && end == last + |blocks|
    ensures forall r :: lo <= r <= last ==> BlockNumbered(t', end, r) == BlockNumbered(t, last, r)
    ensures forall r :: last < r <= end ==> BlockNumbered(t', end, r) == blocks[r - last - 1]
  {
    hide EntryOf;
  }

  lemma AllFound<E>(
      t: Table, last: int, prior: map<(BlockId, nat), E>, t': Table, end: int, memory: map<(BlockId, nat), E>, head: nat, tail: nat,
      items: seq<E>)
    requires head <= tail && Placed(prior, memory, t', end, head, tail, tail + |items|, items)
    requires forall i :: head <= i < tail ==> Cell(t', end, i) == Cell(t, last, i)
    ensures forall i :: head <= i < tail ==> Cell(t, last, i) in prior
    ensures forall i :: head <= i < tail + |items| ==> Cell(t', end, i) in memory
    ensures Found(t', end, memory, head, tail + |items|) == Found(t, last, prior, head, tail) + items
  {
    hide Cell;
    forall i | head <= i < tail ensures Cell(t, last, i) in prior { assert Cell(t', end, i) == Cell(t, last, i); }
  }

  lemma SameThrough(t: Table, last: int, u: Table, last': int, v: Table, last'': int, lo: int, up: int)
    requires Same(t, last, u, last', lo, up) && Same(u, last', v, last'', lo, up)
    ensures Same(t, last, v, last'', lo, up)
  {
  }
}

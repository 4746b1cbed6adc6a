/** Every operation on the block index keeps it in order, and consumers' lookups in it succeed. */
module BlockIndexSafety {
  import opened Options
  import opened BlockIndex

  // ---- the operations keep the index in order ----

  ghost predicate HeaderKept(x: Index, a: Header, b: Header) {
    && b.capacity == a.capacity && b.shift == a.shift && b.index == a.index
    && (forall r, lo :: InWindow(a, r) && 0 <= lo <= r && lo < |x.phase| && Holds(x.phase[lo]) ==> InWindow(b, r))
  }

  /** Nothing a consumer with an unfinished index may still look up is lost from any header, old or new. */
  ghost predicate WindowsKept(x: Index, x': Index) {
    && |x.headers| <= |x'.headers|
    && (forall h :: 0 <= h < |x.headers| ==> HeaderKept(x, x.headers[h], x'.headers[h]))
  }

  lemma HeaderGrows(x: Index, x': Index, h: Header)
    requires HeaderOk(x, h) && x.entryOf <= x'.entryOf
    ensures HeaderOk(x', h)
  {
  }

  /** IndexOk after a step that changes at most the newest header. */
  lemma NewestHeader(x: Index, x': Index)
    requires IndexOk(x) && x.entryOf <= x'.entryOf && |x'.phase| == |x'.blockOf|
    requires |x'.headers| == |x.headers| && x'.headers[..|x.headers| - 1] == x.headers[..|x.headers| - 1]
    requires HeaderOk(x', Current(x')) && RingOk(x', Current(x'))
    requires |x'.entryOf| == Current(x').top + 1
    requires Current(x').top - Current(x').window < |x'.blockOf| <= |x'.entryOf|
    ensures IndexOk(x')
  {
    hide HeaderOk, RingOk;
    var n := |x.headers| - 1;
    forall i | 0 <= i < n ensures x'.headers[i] == x.headers[i] {
      assert x'.headers[i] == x'.headers[..n][i];
    }
    forall i | 0 <= i < |x'.headers| ensures HeaderOk(x', x'.headers[i]) {
      if i < n { HeaderGrows(x, x', x.headers[i]); }
    }
  }

  lemma OldHeadersKept(x: Index, x': Index)
    requires |x'.headers| == |x.headers| > 0 && x'.headers[..|x.headers| - 1] == x.headers[..|x.headers| - 1]
    requires HeaderKept(x, Current(x), Current(x'))
    ensures WindowsKept(x, x')
  {
    var n := |x.headers| - 1;
    forall i | 0 <= i < |x.headers| ensures HeaderKept(x, x.headers[i], x'.headers[i]) {
      if i < n { assert x'.headers[i] == x'.headers[..n][i] == x.headers[i]; }
    }
  }

  /** e is the entry the ring offers for the next block number, and insert_block_index_entry's test let it be taken. */
  ghost predicate Takable(x: Index, e: EntryId) {
    var h, q := Current(x), |x.blockOf|;
    && h.last == q - 1 && e == IndexAt(h, Slot(h, q))
    && (Unused(x, e) || EntryAt(x, e).value.None?)
  }

  /** An attempt undone earlier has left the entry keyed as this one will. */
  lemma TakeAgain(x: Index, e: EntryId)
    requires IndexOk(x) && Takable(x, e) && |x.entryOf| > |x.blockOf|
    ensures TakeEntry(x, e, |x.blockOf|) == x && x.entryOf[|x.blockOf|] == e && InWindow(Current(x), |x.blockOf|)
  {
    hide IndexOk, RingOk;
    CurrentKnown(x);
    NumberKnown(x, |x.blockOf|);
  }

  /**
   * The slot for a new number is one never used, or, in a full ring, that of the oldest number,
   * which no longer holds a block.
   */
  lemma OldestIsFree(x: Index, e: EntryId)
    requires IndexOk(x) && Takable(x, e) && |x.entryOf| == |x.blockOf|
    ensures var h, q := Current(x), |x.blockOf|;
      if h.window == h.capacity then q - h.capacity >= 0 && !Holds(x.phase[q - h.capacity]) else Unused(x, e)
  {
    hide IndexOk;
    CurrentKnown(x);
    var h, q := Current(x), |x.blockOf|;
    assert Slot(h, q) == Slot(h, q - h.capacity) by { SlotWraps(h, q - h.capacity); }
    hide Slot;
    if h.window == h.capacity {
      NumberKnown(x, q - h.capacity);
    }
  }

  lemma OtherEntriesKept(x: Index, x': Index, e: EntryId, r: int)
    requires IndexOk(x) && Takable(x, e) && |x.entryOf| == |x.blockOf|
    requires x' == TakeEntry(x, e, |x.blockOf|)
    requires InWindow(Current(x'), r) && r != |x.blockOf|
    ensures InWindow(Current(x), r) && 0 <= r < |x.entryOf| && EntryAt(x', x'.entryOf[r]) == EntryAt(x, x.entryOf[r])
    ensures x'.entryOf[r] == IndexAt(Current(x), Slot(Current(x), r)) && EntryOk(x', r)
  {
    hide IndexOk, WindowOk, SpareOk, HoldersListed, EntriesDiffer, Maps;
    CurrentKnown(x);
    var h, q := Current(x), |x.blockOf|;
    NumberKnown(x, r);
    SlotsDiffer(h, r, q);
    hide Slot, HeaderOk;
    EntriesOfSlotsDiffer(h, |x.entries|, Slot(h, r), Slot(h, q));
  }

  lemma UnusedKept(x: Index, x': Index, e: EntryId, r: int)
    requires IndexOk(x) && Takable(x, e) && |x.entryOf| == |x.blockOf|
    requires x' == TakeEntry(x, e, |x.blockOf|)
    requires var h' := Current(x'); h'.top - h'.capacity < r <= h'.top - h'.window
    ensures Unused(x', IndexAt(Current(x), Slot(Current(x), r)))
  {
    hide IndexOk;
    CurrentKnown(x);
    var h, q := Current(x), |x.blockOf|;
    assert Unused(x, IndexAt(h, Slot(h, r)));
    SlotsDiffer(h, r, q);
    hide Slot;
    EntriesOfSlotsDiffer(h, |x.entries|, Slot(h, r), Slot(h, q));
  }

  lemma SameSlots(a: Header, b: Header)
    requires a.capacity == b.capacity && a.shift == b.shift
    ensures forall r :: Slot(a, r) == Slot(b, r)
  {
  }

  lemma TakenEntry(x: Index, e: EntryId)
    requires IndexOk(x) && Takable(x, e) && |x.entryOf| == |x.blockOf|
    ensures var x', q := TakeEntry(x, e, |x.blockOf|), |x.blockOf|;
      && e < |x.entries| && |x'.entries| == |x.entries|
      && x'.entryOf == x.entryOf + [e] && EntryAt(x', e).key == Base(q) && EntryOk(x', q)
      && IndexAt(Current(x'), Slot(Current(x'), q)) == e
  {
    hide IndexOk;
    CurrentKnown(x);
    SlotWraps(Current(x), |x.blockOf|);
    SameSlots(Current(x), Current(TakeEntry(x, e, |x.blockOf|)));
    hide Slot;
  }

  lemma TakenKeepsHolders(x: Index, x': Index, e: EntryId)
    requires IndexOk(x) && Takable(x, e) && |x.entryOf| == |x.blockOf|
    requires x' == TakeEntry(x, e, |x.blockOf|)
    ensures HoldersListed(x', Current(x')) && WindowsKept(x, x')
  {
    hide IndexOk, Takable, Slot;
    CurrentKnown(x);
    OldestIsFree(x, e);
    hide WindowOk, SpareOk;
    OldHeadersKept(x, x');
  }

  lemma TakeFresh(x: Index, e: EntryId)
    requires IndexOk(x) && Takable(x, e) && |x.entryOf| == |x.blockOf|
    ensures var x' := TakeEntry(x, e, |x.blockOf|);
      && IndexOk(x') && WindowsKept(x, x') && |x'.entryOf| == |x.blockOf| + 1 && x'.entryOf[|x.blockOf|] == e
      && Current(x').last == Current(x).last && InWindow(Current(x'), |x.blockOf|)
  {
    hide IndexOk, Slot;
    CurrentKnown(x);
    var x', h, q := TakeEntry(x, e, |x.blockOf|), Current(x), |x.blockOf|;
    var h' := Current(x');
    TakenEntry(x, e);
    TakenKeepsHolders(x, x', e);
    SameSlots(h, h');
    assert EntriesDiffer(h', |x'.entries|);
    assert h.last == q - 1;
    hide Takable, HoldersListed, EntriesDiffer, Unused, Maps, WindowsKept, WindowOk, SpareOk;
    assert Maps(x', h') by { TakenMaps(x, x', e); }
    assert WindowOk(x', h') by { TakenWindow(x, x', e); }
    assert SpareOk(x', h') by { TakenSpare(x, x', e); }
    NewestHeader(x, x');
  }

  lemma TakenMaps(x: Index, x': Index, e: EntryId)
    requires IndexOk(x) && Takable(x, e) && |x.entryOf| == |x.blockOf|
    requires x' == TakeEntry(x, e, |x.blockOf|)
    ensures Maps(x', Current(x'))
  {
    hide IndexOk, Slot;
    TakenEntry(x, e);
    SameSlots(Current(x), Current(x'));
    forall r | InWindow(Current(x'), r) && 0 <= r < |x'.entryOf|
      ensures IndexAt(Current(x'), Slot(Current(x'), r)) == x'.entryOf[r]
    {
      if r != |x.blockOf| { OtherEntriesKept(x, x', e, r); }
    }
  }

  lemma TakenWindow(x: Index, x': Index, e: EntryId)
    requires IndexOk(x) && Takable(x, e) && |x.entryOf| == |x.blockOf|
    requires x' == TakeEntry(x, e, |x.blockOf|)
    ensures WindowOk(x', Current(x'))
  {
    hide IndexOk, Slot, EntryOk;
    TakenEntry(x, e);
    forall r | InWindow(Current(x'), r) && 0 <= r < |x'.entryOf| ensures EntryOk(x', r) {
      if r != |x.blockOf| { OtherEntriesKept(x, x', e, r); }
    }
  }

  lemma TakenSpare(x: Index, x': Index, e: EntryId)
    requires IndexOk(x) && Takable(x, e) && |x.entryOf| == |x.blockOf|
    requires x' == TakeEntry(x, e, |x.blockOf|)
    ensures SpareOk(x', Current(x'))
  {
    hide IndexOk, Slot, Unused;
    SameSlots(Current(x), Current(x'));
    var h' := Current(x');
    forall r | h'.top - h'.capacity < r <= h'.top - h'.window ensures Unused(x', IndexAt(h', Slot(h', r))) {
      UnusedKept(x, x', e, r);
    }
  }

  // ---- growth ----

  /** The old ring's entries keep their numbers in the new ring; numbers further back fall on new entries. */
  lemma DoubledSlot(h: Header, firstNew: EntryId, r: int)
    requires h.capacity > 0 && h.last == h.top && h.tail == Slot(h, h.last) && |h.index| == h.capacity
    requires h.top - 2 * h.capacity < r <= h.top
    ensures var h' := Doubled(h, firstNew);
      if h.top - h.capacity < r then IndexAt(h', Slot(h', r)) == IndexAt(h, Slot(h, r))
      else firstNew <= IndexAt(h', Slot(h', r)) < firstNew + h.capacity
  {
    var h', c := Doubled(h, firstNew), h.capacity;
    var i := r + c - 1 - h.top;
    if h.top - c < r {
      RingIs(i, i, 0, 2 * c);
      SlotAdvance(h, h.last, 1 + i);
      SlotWraps(h, r);
      hide Slot, Ring;
      assert IndexAt(h', i) == MovedEntry(h, firstNew, i) == IndexAt(h, Slot(h, r + c));
    } else {
      RingIs(i, i + 2 * c, -1, 2 * c);
      assert IndexAt(h', i + 2 * c) == MovedEntry(h, firstNew, i + 2 * c) == firstNew + (i + c);
    }
  }

  lemma MovedDiffers(h: Header, n: nat, i: nat, j: nat)
    requires |h.index| == h.capacity && EntriesDiffer(h, n) && i < j < h.capacity
    ensures MovedEntry(h, n, i) != MovedEntry(h, n, j) && MovedEntry(h, n, i) < n && MovedEntry(h, n, j) < n
  {
    RingDiffers(h.tail + 1 + i, h.tail + 1 + j, h.capacity);
    hide Ring;
    EntriesOfSlotsDiffer(h, n, Ring(h.tail + 1 + i, h.capacity), Ring(h.tail + 1 + j, h.capacity));
  }

  lemma DoubledDiffers(h: Header, n: nat)
    requires h.capacity > 1 && |h.index| == h.capacity && EntriesDiffer(h, n)
    ensures EntriesDiffer(Doubled(h, n), n + h.capacity)
  {
    var h', c := Doubled(h, n), h.capacity;
    forall i | 0 <= i < 2 * c ensures h'.index[i] < n + c && (h'.index[i] < n <==> i < c) {
      if i + 1 < c { MovedDiffers(h, n, i, i + 1); } else if i < c { MovedDiffers(h, n, 0, i); }
    }
    forall i, j | 0 <= i < j < 2 * c ensures h'.index[i] != h'.index[j] {
      if j < c { MovedDiffers(h, n, i, j); }
    }
  }

  /** Everything insert_block_index_entry needs to know when it calls new_block_index: the ring is full, nothing undone. */
  ghost predicate Full(x: Index) {
    Current(x).window == Current(x).capacity && |x.entryOf| == |x.blockOf| && Current(x).last == |x.blockOf| - 1
  }

  lemma GrownRing(x: Index, garbage: Option<BlockId>)
    requires IndexOk(x) && Full(x)
    ensures HeaderOk(Grown(x, garbage), Current(Grown(x, garbage)))
    ensures RingOk(Grown(x, garbage), Current(Grown(x, garbage)))
  {
    hide IndexOk;
    CurrentKnown(x);
    var x', h := Grown(x, garbage), Current(x);
    var h' := Current(x');
    DoubledDiffers(h, |x.entries|);
    forall r | InWindow(h', r) ensures IndexAt(h', Slot(h', r)) == x'.entryOf[r] && EntryOk(x', r) {
      DoubledSlot(h, |x.entries|, r);
      NumberKnown(x, r);
    }
    forall r | h'.top - h'.capacity < r <= h'.top - h'.window ensures Unused(x', IndexAt(h', Slot(h', r))) {
      DoubledSlot(h, |x.entries|, r);
    }
  }

  /**
   * Doubling loses no entry and leaves room: the slot after the tail is a new entry, as insert_block_index_entry asserts.
   */
  lemma GrowthLeavesRoom(x: Index, garbage: Option<BlockId>)
    requires IndexOk(x) && Full(x)
    ensures var x' := Grown(x, garbage); var h' := Current(x');
      && IndexOk(x') && WindowsKept(x, x')
      && h'.last == Current(x).last && Unused(x', IndexAt(h', Ring(h'.tail + 1, h'.capacity)))
      && (forall r :: InWindow(Current(x), r) ==> InWindow(h', r))
  {
    var x' := Grown(x, garbage);
    GrownRing(x, garbage);
    CurrentKnown(x);
    var h' := Current(x');
    assert Unused(x', IndexAt(h', Ring(h'.tail + 1, h'.capacity))) by {
      SlotAdvance(h', h'.last, 1);
      SlotWraps(h', h'.last + 1 - h'.capacity);
      hide Slot, Ring;
      assert SpareOk(x', h');
    }
    hide RingOk, HeaderOk;
    assert Current(x).last == Current(x).top;
    forall i | 0 <= i < |x'.headers| ensures HeaderOk(x', x'.headers[i]) {
      if i < |x.headers| { HeaderKnown(x, i); HeaderGrows(x, x', x.headers[i]); }
    }
  }

  // ---- the other operations ----

  lemma MoveTailKeeps(x: Index, slot: nat, last: int)
    requires IndexOk(x) && -1 <= last <= Current(x).top && slot == Slot(Current(x), last)
    ensures var x' := MoveTail(x, slot, last);
      && IndexOk(x') && WindowsKept(x, x') && Current(x') == Current(x).(tail := slot, last := last)
  {
    hide IndexOk, EntriesDiffer, EntryOk, HoldersListed;
    CurrentKnown(x);
    var x', h := MoveTail(x, slot, last), Current(x);
    var h' := Current(x');
    SameSlots(h, h');
    hide Slot;
    assert EntriesDiffer(h', |x'.entries|) by { SameRing(h, h', |x.entries|); }
    assert HoldersListed(x', h') by { SameHolders(x, x', h, h'); }
    forall r | 0 <= r < |x.entryOf| && EntryOk(x, r) ensures EntryOk(x', r) {
      SameEntry(x, x', r);
    }
    NewestHeader(x, x');
    OldHeadersKept(x, x');
  }

  lemma SameRing(h: Header, h': Header, n: nat)
    requires EntriesDiffer(h, n) && h'.index == h.index
    ensures EntriesDiffer(h', n)
  {
  }

  lemma SameHolders(x: Index, x': Index, h: Header, h': Header)
    requires HoldersListed(x, h) && h'.top == h.top && h'.window == h.window && x'.phase == x.phase
    ensures HoldersListed(x', h')
  {
  }

  lemma SameEntry(x: Index, x': Index, r: int)
    requires 0 <= r < |x.entryOf| && EntryOk(x, r)
    requires x'.entries == x.entries && x'.entryOf == x.entryOf && x'.phase == x.phase && x'.blockOf == x.blockOf
    ensures EntryOk(x', r)
  {
  }

  /** Number q's entry, block or phase changes; the others' do not. */
  ghost predicate OnlyNumber(x: Index, x': Index, q: nat) {
    && x'.headers == x.headers && x'.entryOf == x.entryOf && q < |x.entryOf| && |x'.entries| == |x.entries|
    && |x'.phase| == |x'.blockOf| && x.blockOf <= x'.blockOf && |x'.blockOf| <= |x.entryOf|
    && (forall r :: 0 <= r < |x'.phase| && r != q ==> r < |x.phase| && x'.phase[r] == x.phase[r])
    && (forall e :: 0 <= e < |x.entries| ==> x'.entries[e].key == x.entries[e].key)
    && (forall e :: 0 <= e < |x.entries| && e != x.entryOf[q] ==> x'.entries[e] == x.entries[e])
    && (q < |x'.phase| && Holds(x'.phase[q]) ==> InWindow(Current(x), q))
  }

  lemma OnlyNumberKeeps(x: Index, x': Index, q: nat)
    requires IndexOk(x) && OnlyNumber(x, x', q) && (InWindow(Current(x), q) ==> EntryOk(x', q))
    requires x'.entries == x.entries || InWindow(Current(x), q)
    ensures IndexOk(x')
    ensures (q < |x.phase| && Holds(x.phase[q]) ==> InWindow(Current(x), q)) && WindowsKept(x, x')
  {
    hide IndexOk, Slot;
    CurrentKnown(x);
    var h := Current(x);
    forall r | InWindow(h, r) && 0 <= r < |x.entryOf| ensures EntryOk(x', r) {
      if r != q {
        assert EntryOk(x, r);
        if x'.entries != x.entries { NumbersDiffer(x, r, q); }
      }
    }
    NewestHeader(x, x');
    OldHeadersKept(x, x');
  }

  lemma PublishKeeps(x: Index, e: EntryId, b: BlockId)
    requires IndexOk(x) && |x.entryOf| > |x.blockOf| && e == x.entryOf[|x.blockOf|]
    ensures IndexOk(Publish(x, e, b)) && WindowsKept(x, Publish(x, e, b))
  {
    hide IndexOk, Slot;
    CurrentKnown(x);
    NumberKnown(x, |x.blockOf|);
    hide HeaderOk, RingOk, Maps;
    OnlyNumberKeeps(x, Publish(x, e, b), |x.blockOf|);
  }

  /** The entry of a number not in use, whose attempt is being undone, is cleared. */
  lemma UnvalueKeeps(x: Index, e: EntryId, q: nat)
    requires IndexOk(x) && |x.blockOf| <= q < |x.entryOf| && e == x.entryOf[q]
    ensures IndexOk(SetValue(x, e, None)) && WindowsKept(x, SetValue(x, e, None))
    ensures EntryAt(SetValue(x, e, None), e).value.None?
    ensures forall r :: |x.blockOf| <= r < |x.entryOf| && r != q ==>
              EntryAt(SetValue(x, e, None), x.entryOf[r]) == EntryAt(x, x.entryOf[r])
  {
    hide IndexOk, Slot;
    CurrentKnown(x);
    NumberKnown(x, q);
    hide HeaderOk, RingOk, Maps;
    OnlyNumberKeeps(x, SetValue(x, e, None), q);
    forall r | |x.blockOf| <= r < |x.entryOf| && r != q ensures x.entryOf[r] != e {
      NumbersDiffer(x, r, q);
    }
  }

  /** Taking the numbers from n on out of use loses nothing that is still looked up. */
  lemma WithdrawKeeps(x: Index, n: nat)
    requires IndexOk(x) && n < |x.phase| && Holds(x.phase[n])
    ensures IndexOk(Withdrawn(x, n)) && WindowsKept(x, Withdrawn(x, n))
  {
    hide IndexOk, Slot;
    CurrentKnown(x);
    HoldsInWindow(x, n);
    var x' := Withdrawn(x, n);
    forall r | InWindow(Current(x), r) && 0 <= r < |x.entryOf| ensures EntryOk(x', r) {
      assert EntryOk(x, r);
    }
    hide Maps;
    NewestHeader(x, x');
    OldHeadersKept(x, x');
  }

  /** The enqueuer's own lookup: while the tail is at a number keyed in the ring, it arrives at the entry of number q. */
  lemma LookedUpIsEntry(x: Index, q: nat)
    requires IndexOk(x) && |x.blockOf| <= q < |x.entryOf| && |x.blockOf| <= Current(x).last
    ensures LookedUp(x, q) == x.entryOf[q] && EntryAt(x, x.entryOf[q]).key == Base(q)
  {
    hide IndexOk;
    CurrentKnown(x);
    NumberKnown(x, q);
    NumberKnown(x, Current(x).last);
    SlotAdvance(Current(x), Current(x).last, q - Current(x).last);
    hide Slot, RingOk, Ring;
  }

  /** The first two stages of retiring a block that some consumer found empty: Closing, then Cleared. */
  lemma ClosingKeeps(x: Index, q: nat, t: ThreadId)
    requires IndexOk(x) && q < |x.phase| && x.phase[q].Live?
    ensures IndexOk(SetPhase(x, q, Closing(t))) && WindowsKept(x, SetPhase(x, q, Closing(t)))
  {
    hide IndexOk, Slot;
    HoldsInWindow(x, q);
    NumberKnown(x, q);
    CurrentKnown(x);
    hide HeaderOk, RingOk, Maps;
    OnlyNumberKeeps(x, SetPhase(x, q, Closing(t)), q);
  }

  lemma ClearedKeeps(x: Index, q: nat, t: ThreadId)
    requires IndexOk(x) && q < |x.phase| && x.phase[q].Closing? && q < |x.entryOf|
    ensures var x' := SetPhase(SetValue(x, x.entryOf[q], None), q, Cleared(t));
      && IndexOk(x') && WindowsKept(x, x')
      && forall r :: |x.blockOf| <= r < |x.entryOf| ==> EntryAt(x', x.entryOf[r]) == EntryAt(x, x.entryOf[r])
  {
    hide IndexOk, Slot;
    HoldsInWindow(x, q);
    NumberKnown(x, q);
    CurrentKnown(x);
    hide HeaderOk, RingOk, Maps;
    OnlyNumberKeeps(x, SetPhase(SetValue(x, x.entryOf[q], None), q, Cleared(t)), q);
    forall r | |x.blockOf| <= r < |x.entryOf| ensures x.entryOf[r] != x.entryOf[q] {
      NumbersDiffer(x, r, q);
    }
  }

  lemma ReturnedKeeps(x: Index, q: nat)
    requires IndexOk(x) && q < |x.phase| && x.phase[q].Cleared?
    ensures IndexOk(SetPhase(x, q, Returned)) && WindowsKept(x, SetPhase(x, q, Returned))
  {
    hide IndexOk, Slot;
    CurrentKnown(x);
    if InWindow(Current(x), q) { NumberKnown(x, q); }
    hide HeaderOk, RingOk, Maps;
    OnlyNumberKeeps(x, SetPhase(x, q, Returned), q);
  }

  // ---- lookup ----

  /**
   * get_block_index_index_for_index, made through any header a consumer may hold while number q is live: the tail entry
   * it read names a real block, the signed distance leads to the slot of q, and the entry there has q's base and block.
   * Both assertions in the source hold.
   */
  lemma LookupFindsBlock(x: Index, h: nat, number: int, q: nat)
    requires IndexOk(x) && h < |x.headers| && q < |x.phase| && x.phase[q].Live?
    requires InWindow(x.headers[h], q) && InWindow(x.headers[h], number) && q <= number
    ensures var header := x.headers[h]; var tail := Slot(header, number);
      var tailBase := EntryAt(x, IndexAt(header, tail)).key;
      var slot := Ring(tail + (Base(q) - tailBase) / BLOCK_SIZE, header.capacity);
      && tailBase == Base(number) && tailBase != INVALID_BLOCK_BASE && slot == Slot(header, q)
      && EntryAt(x, IndexAt(header, slot)) == Entry(Base(q), Some(x.blockOf[q]))
  {
    hide IndexOk;
    CurrentKnown(x);
    HeaderKnown(x, h);
    HoldsInWindow(x, q);
    NumberKnown(x, q);
    NumberKnown(x, number);
    SlotAdvance(x.headers[h], number, q - number);
    hide Slot, RingOk, Ring;
  }
}

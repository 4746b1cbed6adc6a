/**
 * The reference-counted free list of blocks under every interleaving of `add` and `try_get` by any number of threads
 * (concurrentqueue.h:1429-1557). Each event is one atomic operation.
 */
module FreeList {
  import opened Options
  import opened Modular

  type ThreadId = nat
  type Node = nat

  // ---- the reference word ----

  const REFS_MASK: nat := 0x7FFF_FFFF
  const SHOULD_BE_ON_FREELIST: nat := 0x8000_0000

  /** freeListRefs taken apart: the should-be-on-freelist bit and the count below it. */
  datatype Refs = Refs(flag: bool, count: nat)

  function Word(r: Refs): nat {
    (if r.flag then SHOULD_BE_ON_FREELIST else 0) + r.count
  }

  /**
   * Every operation the list performs on the 32-bit word is the intended operation on flag and count,
   * as long as the count stays below the flag's bit.
   */
  lemma WordOperations(a: Refs, b: Refs)
    requires a.count < REFS_MASK && b.count < REFS_MASK
    ensures Word(a) < 0x1_0000_0000
    ensures Word(a) % SHOULD_BE_ON_FREELIST == 0 <==> a.count == 0
    ensures Word(a) / SHOULD_BE_ON_FREELIST == 0 <==> !a.flag
    ensures Word(a) == Word(b) <==> a == b
    ensures Word(a) == SHOULD_BE_ON_FREELIST + 1 <==> a == Refs(true, 1)
    ensures !a.flag ==> Word(a) + SHOULD_BE_ON_FREELIST == Word(a.(flag := true))
    ensures !a.flag && a.count > 0 ==>
              Word(a) + (SHOULD_BE_ON_FREELIST - 1) == Word(Refs(true, a.count - 1))
    ensures Word(a) + 1 == Word(a.(count := a.count + 1))
    ensures a.count >= 1 ==> Word(a) - 1 == Word(a.(count := a.count - 1))
    ensures a.count >= 2 ==> Word(a) - 2 == Word(a.(count := a.count - 2))
  {
  }

  // ---- the transition system ----

  /** Where add_knowing_refcount_is_zero returns to: out of add, or into the loop of try_get with a new candidate. */
  datatype Return = Done | Retry(head: Option<Node>)

  datatype Pc =
    | Idle
    | AddStart(node: Node)
    | LoadHead(node: Node, k: Return)
    | LinkNext(node: Node, head: Option<Node>, k: Return)
    | ResetRefs(node: Node, head: Option<Node>, k: Return)
    | PushHead(node: Node, head: Option<Node>, k: Return)
    | ReFlag(node: Node, head: Option<Node>, k: Return)
    | GetHead
    | LoadRefs(node: Node)
    | IncRefs(node: Node, refs: Refs)
    | LoadNext(node: Node)
    | PopHead(node: Node, next: Option<Node>)
    | DropTwo(node: Node)
    | DropOne(node: Node, head: Option<Node>)

  /** Whose a node is. This is history: no step of the program reads it. */
  datatype Phase =
    | Out                      // with a client of the list
    | Offered(owner: ThreadId)    // passed to add, whose first operation is still to come
    | Flagged                  // added; whoever drops the last reference will link it
    | Adding(owner: ThreadId)     // being linked
    | Listed
    | Taken(owner: ThreadId)      // unlinked by try_get, which has not returned it yet

  datatype Entry = Added(node: Node) | Took(node: Node)

  datatype State = State(
    head: Option<Node>, next: map<Node, Option<Node>>, refs: map<Node, Refs>, pcs: map<ThreadId, Pc>,
    list: seq<Node>, phase: map<Node, Phase>, log: seq<Entry>   // history
  )

  datatype Event = BeginAdd(t: ThreadId, n: Node) | BeginGet(t: ThreadId) | Advance(t: ThreadId)

  const INIT := State(None, map[], map[], map[], [], map[], [])

  function PcOf(s: State, t: ThreadId): Pc { if t in s.pcs then s.pcs[t] else Idle }

  function NextOf(s: State, n: Node): Option<Node> { if n in s.next then s.next[n] else None }

  function RefsOf(s: State, n: Node): Refs { if n in s.refs then s.refs[n] else Refs(false, 0) }

  function PhaseOf(s: State, n: Node): Phase { if n in s.phase then s.phase[n] else Out }

  function Goto(s: State, t: ThreadId, pc: Pc): State { s.(pcs := s.pcs[t := pc]) }

  function SetRefs(s: State, n: Node, r: Refs): State { s.(refs := s.refs[n := r]) }

  function SetPhase(s: State, n: Node, p: Phase): State { s.(phase := s.phase[n := p]) }

  function Minus(a: nat, b: nat): nat { if b <= a then a - b else 0 }

  /** The top of the loop in try_get, with candidate head. */
  function Consider(head: Option<Node>): Pc {
    if head.None? then Idle else LoadRefs(head.value)
  }

  function Resume(k: Return): Pc {
    match k case Done => Idle case Retry(head) => Consider(head)
  }

  /** One atomic operation of thread t. */
  function StepThread(s: State, t: ThreadId): State {
    match PcOf(s, t)
    case Idle => s
    case AddStart(n) =>
      var r := RefsOf(s, n);
      var s1 := SetRefs(s, n, r.(flag := true)).(log := s.log + [Added(n)]);
      if r == Refs(false, 0) then Goto(SetPhase(s1, n, Adding(t)), t, LoadHead(n, Done))
      else Goto(SetPhase(s1, n, Flagged), t, Idle)
    case LoadHead(n, k) => Goto(s, t, LinkNext(n, s.head, k))
    case LinkNext(n, h, k) => Goto(s.(next := s.next[n := h]), t, ResetRefs(n, h, k))
    case ResetRefs(n, h, k) => Goto(SetRefs(s, n, Refs(false, 1)), t, PushHead(n, h, k))
    case PushHead(n, h, k) =>
      if s.head == h then Goto(SetPhase(s.(head := Some(n), list := [n] + s.list), n, Listed), t, Resume(k))
      else Goto(s, t, ReFlag(n, s.head, k))
    case ReFlag(n, h, k) =>
      var r := RefsOf(s, n);
      var s1 := SetRefs(s, n, Refs(true, Minus(r.count, 1)));
      if r == Refs(false, 1) then Goto(s1, t, LinkNext(n, h, k))
      else Goto(SetPhase(s1, n, Flagged), t, Resume(k))
    case GetHead => Goto(s, t, Consider(s.head))
    case LoadRefs(n) =>
      var r := RefsOf(s, n);
      Goto(s, t, if r.count == 0 then GetHead else IncRefs(n, r))
    case IncRefs(n, r) =>
      if RefsOf(s, n) == r then Goto(SetRefs(s, n, r.(count := r.count + 1)), t, LoadNext(n))
      else Goto(s, t, GetHead)
    case LoadNext(n) => Goto(s, t, PopHead(n, NextOf(s, n)))
    case PopHead(n, next) =>
      if s.head == Some(n) then
        Goto(SetPhase(s.(head := next, list := if s.list == [] then [] else s.list[1..], log := s.log + [Took(n)]),
                      n, Taken(t)), t, DropTwo(n))
      else Goto(s, t, DropOne(n, s.head))
    case DropTwo(n) =>
      var r := RefsOf(s, n);
      Goto(SetPhase(SetRefs(s, n, r.(count := Minus(r.count, 2))), n, Out), t, Idle)
    case DropOne(n, h) =>
      var r := RefsOf(s, n);
      var s1 := SetRefs(s, n, r.(count := Minus(r.count, 1)));
      if r == Refs(true, 1) then Goto(SetPhase(s1, n, Adding(t)), t, LoadHead(n, Retry(h)))
      else Goto(s1, t, Consider(h))
  }

  /** Clients only add a node that is theirs to give. */
  function Next(s: State, e: Event): State {
    match e
    case BeginAdd(t, n) =>
      if PcOf(s, t).Idle? && PhaseOf(s, n).Out? then Goto(SetPhase(s, n, Offered(t)), t, AddStart(n)) else s
    case BeginGet(t) => if PcOf(s, t).Idle? then Goto(s, t, GetHead) else s
    case Advance(t) => StepThread(s, t)
  }

  // ---- the invariant ----

  /** Thread t holds a counted reference on n. */
  predicate Refers(pc: Pc, n: Node) {
    pc == LoadNext(n) || (pc.PopHead? && pc.node == n) || pc == DropTwo(n) || (pc.DropOne? && pc.node == n)
  }

  /** Thread t is linking n; early means before it raises the count from zero. */
  predicate LinksEarly(pc: Pc, n: Node) {
    (pc.LoadHead? || pc.LinkNext? || pc.ResetRefs?) && pc.node == n
  }

  predicate LinksLate(pc: Pc, n: Node) {
    (pc.PushHead? || pc.ReFlag?) && pc.node == n
  }

  function Holders(s: State, n: Node): set<ThreadId> {
    set t | t in s.pcs && Refers(s.pcs[t], n)
  }

  /** The list's own reference: on a listed node, inherited by its taker, or put there in advance by its linker. */
  function ListRef(s: State, n: Node): nat {
    match PhaseOf(s, n)
    case Listed => 1
    case Taken(_) => 1
    case Adding(t) => if LinksLate(PcOf(s, t), n) then 1 else 0
    case _ => 0
  }

  ghost predicate NodeOk(s: State, n: Node) {
    var r := RefsOf(s, n);
    && r.count == |Holders(s, n)| + ListRef(s, n)
    && (n in s.list <==> PhaseOf(s, n).Listed?)
    && match PhaseOf(s, n)
       case Out => !r.flag
       case Offered(t) => !r.flag && PcOf(s, t) == AddStart(n)
       case Flagged => r.flag && r.count > 0
       case Adding(t) =>
         && r.flag == LinksEarly(PcOf(s, t), n) && (LinksEarly(PcOf(s, t), n) || LinksLate(PcOf(s, t), n))
         && (LinksEarly(PcOf(s, t), n) ==> r.count == 0)
       case Listed => !r.flag
       case Taken(t) => !r.flag && PcOf(s, t) == DropTwo(n)
  }

  ghost predicate ThreadOk(s: State, t: ThreadId) {
    match PcOf(s, t)
    case AddStart(n) => PhaseOf(s, n) == Offered(t)
    case LoadHead(n, _) => PhaseOf(s, n) == Adding(t)
    case LinkNext(n, _, _) => PhaseOf(s, n) == Adding(t)
    case ResetRefs(n, h, _) => PhaseOf(s, n) == Adding(t) && NextOf(s, n) == h
    case PushHead(n, h, _) => PhaseOf(s, n) == Adding(t) && NextOf(s, n) == h
    case ReFlag(n, _, _) => PhaseOf(s, n) == Adding(t)
    case IncRefs(_, r) => r.count > 0
    case PopHead(n, next) => NextOf(s, n) == next
    case DropTwo(n) => PhaseOf(s, n) == Taken(t)
    case _ => true
  }

  function HeadOf(list: seq<Node>): Option<Node> { if list == [] then None else Some(list[0]) }

  ghost predicate ListOk(s: State) {
    && s.head == HeadOf(s.list)
    && (forall i :: 0 <= i < |s.list| ==> NextOf(s, s.list[i]) == HeadOf(s.list[i + 1..]))
    && (forall i, j :: 0 <= i < j < |s.list| ==> s.list[i] != s.list[j])
  }

  ghost predicate Inv(s: State) {
    && (forall n :: NodeOk(s, n))
    && (forall t :: ThreadOk(s, t))
    && ListOk(s)
  }

  // ---- every event keeps it ----

  lemma HoldersAfter(s: State, s': State, t: ThreadId, n: Node)
    requires s'.pcs == s.pcs[t := PcOf(s', t)]
    ensures |Holders(s', n)| == |Holders(s, n)| - (if Refers(PcOf(s, t), n) then 1 else 0)
                                + (if Refers(PcOf(s', t), n) then 1 else 0)
    ensures Refers(PcOf(s, t), n) ==> |Holders(s, n)| > 0
  {
    var rest := Holders(s, n) - {t};
    assert Holders(s, n) == if Refers(PcOf(s, t), n) then rest + {t} else rest;
    assert Holders(s', n) == if Refers(PcOf(s', t), n) then rest + {t} else rest;
  }

  function Owner(p: Phase, default: ThreadId): ThreadId {
    match p
    case Offered(t) => t
    case Adding(t) => t
    case Taken(t) => t
    case _ => default
  }

  /** The only node a thread at pc links or holds a reference on is n. */
  predicate Concerns(pc: Pc, n: Node) {
    pc.Idle? || pc.GetHead? || pc.LoadRefs? || pc.IncRefs? || pc.node == n
  }

  /** Thread t works on node n: nothing else is written, and nobody else's claim on n is disturbed. */
  ghost predicate Local(s: State, s': State, t: ThreadId, n: Node) {
    && s'.pcs == s.pcs[t := PcOf(s', t)]
    && Concerns(PcOf(s, t), n) && Concerns(PcOf(s', t), n)
    && (forall m :: m != n ==> NextOf(s', m) == NextOf(s, m) && RefsOf(s', m) == RefsOf(s, m) && PhaseOf(s', m) == PhaseOf(s, m))
    && (forall m :: m != n ==> (m in s'.list <==> m in s.list))
    && (PhaseOf(s', n) == PhaseOf(s, n) || Owner(PhaseOf(s, n), t) == t)
    && (NextOf(s', n) == NextOf(s, n) || (PhaseOf(s, n) == Adding(t) && RefsOf(s, n).count == 0))
  }

  lemma OtherNode(s: State, s': State, t: ThreadId, n: Node, m: Node)
    requires Local(s, s', t, n) && m != n && NodeOk(s, m)
    ensures NodeOk(s', m)
  {
    HoldersAfter(s, s', t, m);
  }

  lemma OtherThread(s: State, s': State, t: ThreadId, n: Node, u: ThreadId)
    requires Local(s, s', t, n) && u != t && ThreadOk(s, u) && NodeOk(s, n)
    ensures ThreadOk(s', u)
  {
    if PcOf(s, u).PopHead? && PcOf(s, u).node == n {
      assert u in Holders(s, n);
    }
  }

  lemma LocalKeepsInv(s: State, s': State, t: ThreadId, n: Node)
    requires Inv(s) && Local(s, s', t, n)
    requires NodeOk(s', n) && ThreadOk(s', t) && ListOk(s')
    ensures Inv(s')
  {
    hide Local, NodeOk, ThreadOk, ListOk;
    forall m ensures NodeOk(s', m) {
      if m != n { OtherNode(s, s', t, n, m); }
    }
    forall u ensures ThreadOk(s', u) {
      if u != t { OtherThread(s, s', t, n, u); }
    }
  }

  lemma Known(s: State, t: ThreadId, n: Node)
    requires Inv(s)
    ensures NodeOk(s, n) && ThreadOk(s, t) && ListOk(s)
  {
    hide NodeOk, ThreadOk, ListOk;
  }

  lemma SameList(s: State, s': State)
    requires ListOk(s) && s'.head == s.head && s'.list == s.list
    requires forall m :: m in s.list ==> NextOf(s', m) == NextOf(s, m)
    ensures ListOk(s')
  {
    forall i | 0 <= i < |s'.list| ensures NextOf(s', s'.list[i]) == HeadOf(s'.list[i + 1..]) {
      assert NextOf(s, s.list[i]) == HeadOf(s.list[i + 1..]);
    }
  }

  lemma AddStartKeepsInv(s: State, t: ThreadId)
    requires Inv(s) && PcOf(s, t).AddStart?
    ensures Inv(StepThread(s, t))
  {
    hide Inv, Holders;
    var s', n := StepThread(s, t), PcOf(s, t).node;
    Known(s, t, n);
    HoldersAfter(s, s', t, n);
    SameList(s, s');
    assert NodeOk(s', n) && ThreadOk(s', t);
    hide NodeOk, ThreadOk, ListOk;
    LocalKeepsInv(s, s', t, n);
  }

  lemma LinkingNode(s: State, t: ThreadId)
    requires Inv(s) && (PcOf(s, t).LoadHead? || PcOf(s, t).LinkNext? || PcOf(s, t).ResetRefs?)
    ensures var s', n := StepThread(s, t), PcOf(s, t).node; NodeOk(s', n) && ThreadOk(s', t)
    ensures RefsOf(s, PcOf(s, t).node).count == 0 && PhaseOf(s, PcOf(s, t).node) == Adding(t)
  {
    hide Inv, Holders, ListOk;
    Known(s, t, PcOf(s, t).node);
    HoldersAfter(s, StepThread(s, t), t, PcOf(s, t).node);
  }

  lemma LinkingKeepsInv(s: State, t: ThreadId)
    requires Inv(s) && (PcOf(s, t).LoadHead? || PcOf(s, t).LinkNext? || PcOf(s, t).ResetRefs?)
    ensures Inv(StepThread(s, t))
  {
    hide Inv, NodeOk, Holders;
    var s', n := StepThread(s, t), PcOf(s, t).node;
    assert n !in s.list by { NotListed(s, t); }
    Known(s, t, n);
    LinkingNode(s, t);
    SameList(s, s');
    hide ListOk, ThreadOk;
    LocalKeepsInv(s, s', t, n);
  }

  lemma NotListed(s: State, t: ThreadId)
    requires Inv(s) && (PcOf(s, t).LoadHead? || PcOf(s, t).LinkNext? || PcOf(s, t).ResetRefs?)
    ensures PcOf(s, t).node !in s.list
  {
    hide Inv, Holders;
    Known(s, t, PcOf(s, t).node);
  }

  lemma Pushed(s: State, s': State, n: Node)
    requires ListOk(s) && n !in s.list && s'.list == [n] + s.list && s'.head == Some(n)
    requires NextOf(s', n) == s.head && forall m :: NextOf(s', m) == NextOf(s, m)
    ensures ListOk(s')
  {
    forall i | 0 <= i < |s'.list| ensures NextOf(s', s'.list[i]) == HeadOf(s'.list[i + 1..]) {
      if i == 0 {
        assert s'.list[1..] == s.list;
      } else {
        assert NextOf(s, s.list[i - 1]) == HeadOf(s.list[i..]);
        assert s'.list[i + 1..] == s.list[i..];
      }
    }
  }

  /** Taking the first node off puts the second at the head, because `next` is still the current successor. */
  lemma Popped(s: State, s': State)
    requires ListOk(s) && s.list != [] && s'.list == s.list[1..] && s'.head == NextOf(s, s.list[0])
    requires forall m :: NextOf(s', m) == NextOf(s, m)
    ensures ListOk(s')
  {
    forall i | 0 <= i < |s'.list| ensures NextOf(s', s'.list[i]) == HeadOf(s'.list[i + 1..]) {
      assert NextOf(s, s.list[i + 1]) == HeadOf(s.list[i + 2..]);
      assert s'.list[i + 1..] == s.list[i + 2..];
    }
    assert NextOf(s, s.list[0]) == HeadOf(s.list[1..]);
  }

  lemma HeadPushed(s: State, t: ThreadId)
    requires Inv(s) && PcOf(s, t).PushHead? && s.head == PcOf(s, t).head
    ensures Inv(StepThread(s, t))
  {
    hide Inv, Holders;
    var s', n := StepThread(s, t), PcOf(s, t).node;
    Known(s, t, n);
    HoldersAfter(s, s', t, n);
    Pushed(s, s', n);
    LocalKeepsInv(s, s', t, n);
  }

  lemma PushHeadKeepsInv(s: State, t: ThreadId)
    requires Inv(s) && PcOf(s, t).PushHead?
    ensures Inv(StepThread(s, t))
  {
    hide Inv, Holders;
    if s.head == PcOf(s, t).head {
      HeadPushed(s, t);
    } else {
      var s', n := StepThread(s, t), PcOf(s, t).node;
      Known(s, t, n);
      HoldersAfter(s, s', t, n);
      SameList(s, s');
      LocalKeepsInv(s, s', t, n);
    }
  }

  lemma ReFlagNode(s: State, t: ThreadId)
    requires Inv(s) && PcOf(s, t).ReFlag?
    ensures var s', n := StepThread(s, t), PcOf(s, t).node; NodeOk(s', n) && ThreadOk(s', t)
  {
    hide Inv, Holders, ListOk;
    Known(s, t, PcOf(s, t).node);
    HoldersAfter(s, StepThread(s, t), t, PcOf(s, t).node);
  }

  lemma ReFlagLocal(s: State, t: ThreadId)
    requires PcOf(s, t).ReFlag? && PhaseOf(s, PcOf(s, t).node) == Adding(t)
    ensures Local(s, StepThread(s, t), t, PcOf(s, t).node)
  {
  }

  lemma ReFlagKeepsInv(s: State, t: ThreadId)
    requires Inv(s) && PcOf(s, t).ReFlag?
    ensures Inv(StepThread(s, t))
  {
    hide Inv, NodeOk, Holders, Local;
    var s', n := StepThread(s, t), PcOf(s, t).node;
    Known(s, t, n);
    ReFlagNode(s, t);
    ReFlagLocal(s, t);
    SameList(s, s');
    hide ListOk, ThreadOk, StepThread;
    LocalKeepsInv(s, s', t, n);
  }

  lemma LoadRefsKeepsInv(s: State, t: ThreadId)
    requires Inv(s) && PcOf(s, t).LoadRefs?
    ensures Inv(StepThread(s, t))
  {
    hide Inv, Holders;
    var s', n := StepThread(s, t), PcOf(s, t).node;
    Known(s, t, n);
    HoldersAfter(s, s', t, n);
    SameList(s, s');
    LocalKeepsInv(s, s', t, n);
  }

  lemma IncRefsKeepsInv(s: State, t: ThreadId)
    requires Inv(s) && PcOf(s, t).IncRefs?
    ensures Inv(StepThread(s, t))
  {
    var pc := PcOf(s, t);
    if RefsOf(s, pc.node) == pc.refs { RefAdded(s, t); } else { MovesOn(s, t, GetHead); }
  }

  lemma RefAdded(s: State, t: ThreadId)
    requires Inv(s) && PcOf(s, t).IncRefs? && RefsOf(s, PcOf(s, t).node) == PcOf(s, t).refs
    ensures Inv(StepThread(s, t))
  {
    hide Inv, Holders;
    var s', n := StepThread(s, t), PcOf(s, t).node;
    Known(s, t, n);
    HoldersAfter(s, s', t, n);
    SameList(s, s');
    LocalKeepsInv(s, s', t, n);
  }

  /** A failed compare-and-swap only moves its thread on, with the reference it had. */
  lemma MovesOn(s: State, t: ThreadId, pc: Pc)
    requires Inv(s) && (PcOf(s, t).IncRefs? || PcOf(s, t).PopHead?)
    requires pc == if PcOf(s, t).IncRefs? then GetHead else DropOne(PcOf(s, t).node, s.head)
    ensures Inv(Goto(s, t, pc))
  {
    hide Inv, Holders, ListOk;
    var s', n := Goto(s, t, pc), PcOf(s, t).node;
    Known(s, t, n);
    HoldersAfter(s, s', t, n);
    assert ListOk(s') by { SameList(s, s'); }
    LocalKeepsInv(s, s', t, n);
  }

  lemma LoadNextKeepsInv(s: State, t: ThreadId)
    requires Inv(s) && PcOf(s, t).LoadNext?
    ensures Inv(StepThread(s, t))
  {
    hide Inv, Holders;
    var s', n := StepThread(s, t), PcOf(s, t).node;
    Known(s, t, n);
    HoldersAfter(s, s', t, n);
    SameList(s, s');
    LocalKeepsInv(s, s', t, n);
  }

  lemma RestStays(s: State, t: ThreadId)
    requires ListOk(s) && ThreadOk(s, t) && PcOf(s, t).PopHead? && s.head == Some(PcOf(s, t).node)
    ensures var s', n := StepThread(s, t), PcOf(s, t).node;
      s.list == [n] + s'.list && n !in s'.list && ListOk(s')
  {
    var s' := StepThread(s, t);
    Popped(s, s');
    assert s.list == [s.list[0]] + s'.list;
  }

  lemma HeadTaken(s: State, t: ThreadId)
    requires Inv(s) && PcOf(s, t).PopHead? && s.head == Some(PcOf(s, t).node)
    ensures Inv(StepThread(s, t))
  {
    hide Inv, Holders, ListOk;
    var s', n := StepThread(s, t), PcOf(s, t).node;
    Known(s, t, n);
    RestStays(s, t);
    HoldersAfter(s, s', t, n);
    LocalKeepsInv(s, s', t, n);
  }

  lemma PopHeadKeepsInv(s: State, t: ThreadId)
    requires Inv(s) && PcOf(s, t).PopHead?
    ensures Inv(StepThread(s, t))
  {
    hide Inv;
    if s.head == Some(PcOf(s, t).node) {
      HeadTaken(s, t);
    } else {
      MovesOn(s, t, DropOne(PcOf(s, t).node, s.head));
    }
  }

  lemma DropTwoKeepsInv(s: State, t: ThreadId)
    requires Inv(s) && PcOf(s, t).DropTwo?
    ensures Inv(StepThread(s, t))
  {
    hide Inv, Holders;
    var s', n := StepThread(s, t), PcOf(s, t).node;
    Known(s, t, n);
    HoldersAfter(s, s', t, n);
    SameList(s, s');
    LocalKeepsInv(s, s', t, n);
  }

  /** The last holder of a flagged node takes over linking it. */
  lemma TakesOverLinking(s: State, t: ThreadId)
    requires Inv(s) && PcOf(s, t).DropOne? && RefsOf(s, PcOf(s, t).node) == Refs(true, 1)
    ensures Inv(StepThread(s, t))
  {
    hide Inv, Holders;
    var s', n := StepThread(s, t), PcOf(s, t).node;
    Known(s, t, n);
    HoldersAfter(s, s', t, n);
    SameList(s, s');
    LocalKeepsInv(s, s', t, n);
  }

  lemma DropOneKeepsInv(s: State, t: ThreadId)
    requires Inv(s) && PcOf(s, t).DropOne?
    ensures Inv(StepThread(s, t))
  {
    hide Inv, Holders;
    var s', n := StepThread(s, t), PcOf(s, t).node;
    if RefsOf(s, n) == Refs(true, 1) {
      TakesOverLinking(s, t);
    } else {
      Known(s, t, n);
      HoldersAfter(s, s', t, n);
      SameList(s, s');
      LocalKeepsInv(s, s', t, n);
    }
  }

  lemma BeginAddKeepsInv(s: State, t: ThreadId, n: Node)
    requires Inv(s) && PcOf(s, t).Idle? && PhaseOf(s, n).Out?
    ensures Inv(Next(s, BeginAdd(t, n)))
  {
    hide Inv, Holders, StepThread;
    var s' := Next(s, BeginAdd(t, n));
    Known(s, t, n);
    HoldersAfter(s, s', t, n);
    SameList(s, s');
    assert NodeOk(s', n) && ThreadOk(s', t);
    hide NodeOk, ThreadOk, ListOk;
    LocalKeepsInv(s, s', t, n);
  }

  lemma BeginGetKeepsInv(s: State, t: ThreadId)
    requires Inv(s) && PcOf(s, t).Idle?
    ensures Inv(Goto(s, t, GetHead))
  {
    hide Inv, Holders;
    var s' := Goto(s, t, GetHead);
    Known(s, t, 0);
    HoldersAfter(s, s', t, 0);
    SameList(s, s');
    hide ListOk;
    LocalKeepsInv(s, s', t, 0);
  }

  lemma GetHeadKeepsInv(s: State, t: ThreadId)
    requires Inv(s) && PcOf(s, t).GetHead?
    ensures Inv(StepThread(s, t))
  {
    hide Inv, Holders;
    var s' := StepThread(s, t);
    Known(s, t, 0);
    HoldersAfter(s, s', t, 0);
    SameList(s, s');
    LocalKeepsInv(s, s', t, 0);
  }

  lemma NextKeepsInv(s: State, e: Event)
    requires Inv(s)
    ensures Inv(Next(s, e))
  {
    hide Inv;
    match e {
      case BeginAdd(t, n) => if PcOf(s, t).Idle? && PhaseOf(s, n).Out? { BeginAddKeepsInv(s, t, n); }
      case BeginGet(t) => if PcOf(s, t).Idle? { BeginGetKeepsInv(s, t); }
      case Advance(t) =>
        match PcOf(s, t) {
          case Idle =>
          case AddStart(_) => AddStartKeepsInv(s, t);
          case PushHead(_, _, _) => PushHeadKeepsInv(s, t);
          case ReFlag(_, _, _) => ReFlagKeepsInv(s, t);
          case PopHead(_, _) => PopHeadKeepsInv(s, t);
          case DropTwo(_) => DropTwoKeepsInv(s, t);
          case DropOne(_, _) => DropOneKeepsInv(s, t);
          case LoadRefs(_) => LoadRefsKeepsInv(s, t);
          case IncRefs(_, _) => IncRefsKeepsInv(s, t);
          case LoadNext(_) => LoadNextKeepsInv(s, t);
          case GetHead => GetHeadKeepsInv(s, t);
          case _ => LinkingKeepsInv(s, t);
        }
    }
  }

  // ---- whole runs ----

  ghost predicate Run(states: seq<State>, events: seq<Event>) {
    && |states| == |events| + 1 && states[0] == INIT
    && (forall i :: 0 <= i < |events| ==> states[i + 1] == Next(states[i], events[i]))
  }

  lemma {:induction false} RunKeepsInv(states: seq<State>, events: seq<Event>, i: nat)
    requires Run(states, events) && i < |states|
    ensures Inv(states[i])
  {
    if i > 0 {
      RunKeepsInv(states, events, i - 1);
      NextKeepsInv(states[i - 1], events[i - 1]);
    } else {
      forall n ensures NodeOk(INIT, n) {
        assert Holders(INIT, n) == {};
      }
    }
  }

  /**
   * No ABA: when a taker's compare-and-swap of the head succeeds, the `next` it read earlier is the node's present
   * successor, so the rest of the list becomes the list; and the assertion that follows it holds there.
   */
  lemma NoAba(states: seq<State>, events: seq<Event>, i: nat, t: ThreadId)
    requires Run(states, events) && i < |states|
    requires PcOf(states[i], t).PopHead? && states[i].head == Some(PcOf(states[i], t).node)
    ensures var s, n := states[i], PcOf(states[i], t).node; var s' := StepThread(s, t);
      && PcOf(s, t).next == NextOf(s, n)
      && s.list == [n] + s'.list && s'.head == HeadOf(s'.list)
      && PcOf(s', t) == DropTwo(n) && !RefsOf(s', n).flag && RefsOf(s', n).count >= 2
  {
    RunKeepsInv(states, events, i);
    var s, n := states[i], PcOf(states[i], t).node;
    var s' := StepThread(s, t);
    PopHeadKeepsInv(s, t);
    Known(s, t, n);
    Known(s', t, n);
    assert t in Holders(s', n);
  }

  /**
   * The assertion after the compare-and-swap is a load of its own: it holds not only then but for as long as the taker has
   * not dropped its references, whatever the others do in between.
   */
  lemma AssertionKeepsHolding(states: seq<State>, events: seq<Event>, i: nat, t: ThreadId, n: Node)
    requires Run(states, events) && i < |states| && PcOf(states[i], t) == DropTwo(n)
    ensures !RefsOf(states[i], n).flag && RefsOf(states[i], n).count >= 2
  {
    RunKeepsInv(states, events, i);
    Known(states[i], t, n);
    assert t in Holders(states[i], n);
  }

  /** No node is lost: when every thread is idle a free node is linked, and each node has just the reference that linking gives. */
  lemma NoNodeIsLost(states: seq<State>, events: seq<Event>, i: nat, n: Node)
    requires Run(states, events) && i < |states| && forall t :: PcOf(states[i], t).Idle?
    ensures InPool(states[i], n) <==> n in states[i].list
    ensures RefsOf(states[i], n) == Refs(false, if n in states[i].list then 1 else 0)
  {
    RunKeepsInv(states, events, i);
    var s := states[i];
    Known(s, 0, n);
    assert Holders(s, n) == {} by {
      forall t | t in s.pcs ensures !Refers(s.pcs[t], n) { assert PcOf(s, t).Idle?; }
    }
  }

  /** The linked structure is a duplicate-free list of exactly the nodes that are free and linked. */
  lemma ListHasNoDuplicates(states: seq<State>, events: seq<Event>, i: nat, n: Node)
    requires Run(states, events) && i < |states|
    ensures var s := states[i];
      && (n in s.list <==> PhaseOf(s, n).Listed?)
      && (forall j, k :: 0 <= j < k < |s.list| ==> s.list[j] != s.list[k])
      && s.head == HeadOf(s.list)
      && (forall j :: 0 <= j < |s.list| ==> NextOf(s, s.list[j]) == HeadOf(s.list[j + 1..]))
  {
    RunKeepsInv(states, events, i);
    Known(states[i], 0, n);
  }

  /** A node that try_get is about to return belongs to that thread alone, and nobody is adding it. */
  lemma TakersAreExclusive(states: seq<State>, events: seq<Event>, i: nat, t: ThreadId, u: ThreadId, n: Node)
    requires Run(states, events) && i < |states| && t != u && PcOf(states[i], t) == DropTwo(n)
    ensures PcOf(states[i], u) != DropTwo(n) && PcOf(states[i], u) != AddStart(n)
    ensures !LinksEarly(PcOf(states[i], u), n) && !LinksLate(PcOf(states[i], u), n) && n !in states[i].list
  {
    RunKeepsInv(states, events, i);
    Known(states[i], t, n);
    Known(states[i], u, n);
  }

  // ---- the abstract pool the list implements ----

  /** The free nodes, whether linked yet or not. */
  ghost predicate InPool(s: State, n: Node) {
    PhaseOf(s, n).Flagged? || PhaseOf(s, n).Adding? || PhaseOf(s, n).Listed?
  }

  /** An operation on node n leaves every other node in or out of the pool as it was. */
  lemma OthersInPool(s: State, t: ThreadId, m: Node)
    requires !PcOf(s, t).Idle? && !PcOf(s, t).GetHead? && m != PcOf(s, t).node
    ensures InPool(StepThread(s, t), m) <==> InPool(s, m)
  {
  }

  lemma NodeInPool(s: State, t: ThreadId)
    requires !PcOf(s, t).Idle? && !PcOf(s, t).GetHead?
    requires NodeOk(s, PcOf(s, t).node) && ThreadOk(s, t) && ListOk(s)
    ensures var s', n := StepThread(s, t), PcOf(s, t).node;
      if PcOf(s, t).AddStart? then s'.log == s.log + [Added(n)] && !InPool(s, n) && InPool(s', n)
      else if PcOf(s, t).PopHead? && s.head == Some(n) then
        s'.log == s.log + [Took(n)] && InPool(s, n) && !InPool(s', n)
      else s'.log == s.log && (InPool(s', n) <==> InPool(s, n))
  {
    hide Holders;
    if PcOf(s, t).PopHead? && s.head == Some(PcOf(s, t).node) {
      assert s.list[0] in s.list;
    }
  }

  /**
   * Each atomic operation does to the pool nothing, or puts in one node that was outside and logs it,
   * or takes out one node that was inside and logs it.
   */
  lemma RefinesPool(s: State, e: Event)
    requires Inv(s)
    ensures var s' := Next(s, e);
      || (s'.log == s.log && forall n :: InPool(s', n) <==> InPool(s, n))
      || (exists a :: s'.log == s.log + [Added(a)] && !InPool(s, a) && forall n :: InPool(s', n) <==> (InPool(s, n) || n == a))
      || (exists a :: s'.log == s.log + [Took(a)] && InPool(s, a) && forall n :: InPool(s', n) <==> (InPool(s, n) && n != a))
  {
    hide Inv;
    var s' := Next(s, e);
    if e.Advance? && !PcOf(s, e.t).Idle? && !PcOf(s, e.t).GetHead? {
      var n := PcOf(s, e.t).node;
      Known(s, e.t, n);
      NodeInPool(s, e.t);
      hide StepThread, InPool;
      forall m | m != n ensures InPool(s', m) <==> InPool(s, m) {
        OthersInPool(s, e.t, m);
      }
    }
  }

  /** Whether the last thing the log says of n is that it was added. */
  function LastAdded(log: seq<Entry>, n: Node): bool {
    if log == [] then false
    else if log[|log| - 1].node == n then log[|log| - 1].Added?
    else LastAdded(log[..|log| - 1], n)
  }

  lemma {:induction false} PoolIsLog(states: seq<State>, events: seq<Event>, i: nat, n: Node)
    requires Run(states, events) && i < |states|
    ensures InPool(states[i], n) <==> LastAdded(states[i].log, n)
  {
    if i > 0 {
      PoolIsLog(states, events, i - 1, n);
      RunKeepsInv(states, events, i - 1);
      RefinesPool(states[i - 1], events[i - 1]);
      var a, b := states[i - 1].log, states[i].log;
      assert b != a ==> b[..|b| - 1] == a;
    }
  }

  /** In every run, a node taken is in the pool just before: it was added, and not taken since. */
  lemma TakenOnlyAfterAdded(states: seq<State>, events: seq<Event>, i: nat, n: Node)
    requires Run(states, events) && i < |events| && states[i + 1].log == states[i].log + [Took(n)]
    ensures LastAdded(states[i].log, n) && !LastAdded(states[i + 1].log, n)
  {
    RunKeepsInv(states, events, i);
    RefinesPool(states[i], events[i]);
    PoolIsLog(states, events, i, n);
    PoolIsLog(states, events, i + 1, n);
    assert states[i + 1].log[|states[i].log|] == Took(n);
  }

  // ---- the count fits its field ----

  /** With fewer than 2^31 - 2 threads no count ever reaches the flag bit, so the word operations above are exact. */
  lemma CountFits(states: seq<State>, events: seq<Event>, i: nat, n: Node)
    requires Run(states, events) && i < |states| && |states[i].pcs| < REFS_MASK - 1
    ensures RefsOf(states[i], n).count < REFS_MASK
  {
    RunKeepsInv(states, events, i);
    Known(states[i], 0, n);
    SubsetSize(Holders(states[i], n), states[i].pcs.Keys);
  }

  // ---- what add and try_get are sure of ----

  /** Thread t takes n steps and nobody else does anything. */
  function Alone(s: State, t: ThreadId, n: nat): State
    decreases n
  {
    if n == 0 then s else Alone(StepThread(s, t), t, n - 1)
  }

  /** An undisturbed try_get of a list that is not empty takes its first node; of an empty one, it returns none. */
  lemma UndisturbedGet(s: State, t: ThreadId)
    requires Inv(s) && PcOf(s, t).Idle?
    ensures var s' := Alone(Next(s, BeginGet(t)), t, if s.list == [] then 1 else 6);
      && PcOf(s', t).Idle?
      && (if s.list == [] then s'.log == s.log && s'.list == []
          else s'.log == s.log + [Took(s.list[0])] && s'.list == s.list[1..])
  {
    if s.list == [] {
      Known(s, t, 0);
      EmptyGet(s, t);
    } else {
      Known(s, t, s.list[0]);
      assert NextOf(s, s.list[0]) == HeadOf(s.list[1..]);
      hide NodeOk, ThreadOk, ListOk, Inv;
      TakesHead(s, t);
    }
  }

  lemma EmptyGet(s: State, t: ThreadId)
    requires PcOf(s, t).Idle? && s.head.None?
    ensures var s' := Alone(Next(s, BeginGet(t)), t, 1); PcOf(s', t).Idle? && s'.log == s.log && s'.list == s.list
  {
    assert PcOf(Next(s, BeginGet(t)), t) == GetHead;
  }

  lemma AloneMore(s: State, t: ThreadId, m: nat, n: nat)
    ensures Alone(s, t, m + n) == Alone(Alone(s, t, m), t, n)
    decreases m
  {
    hide StepThread;
    if m > 0 { AloneMore(StepThread(s, t), t, m - 1, n); }
  }

  lemma TakesHead(s: State, t: ThreadId)
    requires PcOf(s, t).Idle? && s.list != [] && s.head == Some(s.list[0]) && RefsOf(s, s.list[0]).count > 0
    ensures var s' := Alone(Next(s, BeginGet(t)), t, 6);
      PcOf(s', t).Idle? && s'.log == s.log + [Took(s.list[0])] && s'.list == s.list[1..]
  {
    var s0, n := Next(s, BeginGet(t)), s.list[0];
    AloneMore(s0, t, 4, 2);
    ReachesHead(s, t, n);
    TakesReached(Alone(s0, t, 4), t, n);
  }

  lemma ReachesHead(s: State, t: ThreadId, n: Node)
    requires PcOf(s, t).Idle? && s.head == Some(n) && RefsOf(s, n).count > 0
    ensures var s' := Alone(Next(s, BeginGet(t)), t, 4);
      PcOf(s', t).PopHead? && PcOf(s', t).node == n && s'.head == s.head && s'.list == s.list && s'.log == s.log
  {
    var s0 := Next(s, BeginGet(t));
    var s1 := StepThread(s0, t);
    var s2 := StepThread(s1, t);
    assert PcOf(s2, t) == IncRefs(n, RefsOf(s, n));
    var s3 := StepThread(s2, t);
    var s4 := StepThread(s3, t);
    hide StepThread, RefsOf, NextOf;
    assert Alone(s0, t, 4) == Alone(s1, t, 3) == Alone(s2, t, 2) == Alone(s3, t, 1) == s4;
  }

  lemma TakesReached(s: State, t: ThreadId, n: Node)
    requires PcOf(s, t).PopHead? && PcOf(s, t).node == n && s.list != [] && s.list[0] == n && s.head == Some(n)
    ensures var s' := Alone(s, t, 2); PcOf(s', t).Idle? && s'.log == s.log + [Took(n)] && s'.list == s.list[1..]
  {
    var s1 := StepThread(s, t);
    assert PcOf(s1, t) == DropTwo(n);
    var s2 := StepThread(s1, t);
    hide StepThread, RefsOf;
    assert Alone(s, t, 2) == Alone(s1, t, 1) == s2;
  }

  /** An undisturbed add links the node at the front, unless others still hold references: the last of them will link it. */
  lemma UndisturbedAdd(s: State, t: ThreadId, n: Node)
    requires Inv(s) && PcOf(s, t).Idle? && PhaseOf(s, n).Out?
    ensures var alone := Holders(s, n) == {};
      var s' := Alone(Next(s, BeginAdd(t, n)), t, if alone then 5 else 1);
      && PcOf(s', t).Idle? && s'.log == s.log + [Added(n)]
      && s'.list == (if alone then [n] + s.list else s.list) && (!alone ==> PhaseOf(s', n).Flagged?)
  {
    Known(s, t, n);
    var s0 := Next(s, BeginAdd(t, n));
    assert RefsOf(s, n) == Refs(false, |Holders(s, n)|);
    hide NodeOk, ThreadOk, ListOk, Inv, Holders;
    var s1 := StepThread(s0, t);
    if Holders(s, n) == {} {
      assert PcOf(s1, t) == LoadHead(n, Done);
      var s2 := StepThread(s1, t);
      var s3 := StepThread(s2, t);
      var s4 := StepThread(s3, t);
      var s5 := StepThread(s4, t);
      hide StepThread;
      assert Alone(s4, t, 1) == Alone(s5, t, 0) == s5;
      assert Alone(s0, t, 5) == Alone(s1, t, 4) == Alone(s2, t, 3) == Alone(s3, t, 2) == Alone(s4, t, 1);
    } else {
      assert |Holders(s, n)| > 0;
      hide StepThread;
      assert Alone(s0, t, 1) == Alone(s1, t, 0) == s1;
    }
  }

  /** In a try_get; while it links a node for others it remembers the head to go on with. */
  predicate Getting(pc: Pc) {
    match pc
    case Idle => false
    case AddStart(_) => false
    case LoadHead(_, k) => k.Retry?
    case LinkNext(_, _, k) => k.Retry?
    case ResetRefs(_, _, k) => k.Retry?
    case PushHead(_, _, k) => k.Retry?
    case ReFlag(_, _, k) => k.Retry?
    case _ => true
  }

  /** The head with which a try_get will go on is none. */
  predicate SeenEmpty(pc: Pc) {
    match pc
    case LoadHead(_, k) => k == Retry(None)
    case LinkNext(_, _, k) => k == Retry(None)
    case ResetRefs(_, _, k) => k == Retry(None)
    case PushHead(_, _, k) => k == Retry(None)
    case ReFlag(_, _, k) => k == Retry(None)
    case DropOne(_, h) => h == None
    case _ => false
  }

  lemma GetStep(s: State, t: ThreadId)
    requires Getting(PcOf(s, t))
    ensures var pc, pc' := PcOf(s, t), PcOf(StepThread(s, t), t);
      && (pc'.Idle? || Getting(pc'))
      && (pc'.Idle? && !pc.DropTwo? ==> SeenEmpty(pc) || s.head.None?)
      && (SeenEmpty(pc') ==> SeenEmpty(pc) || s.head.None?)
  {
    hide RefsOf, NextOf, PhaseOf, Minus;
    var pc := PcOf(s, t);
    if pc.LoadHead? || pc.LinkNext? || pc.ResetRefs? || pc.PushHead? || pc.ReFlag? {
      LinkingStep(s, t);
    } else {
      hide Resume;
    }
  }

  lemma LinkingStep(s: State, t: ThreadId)
    requires var pc := PcOf(s, t); pc.LoadHead? || pc.LinkNext? || pc.ResetRefs? || pc.PushHead? || pc.ReFlag?
    ensures var pc, pc' := PcOf(s, t), PcOf(StepThread(s, t), t);
      pc' == Resume(pc.k) || ((pc'.LinkNext? || pc'.ResetRefs? || pc'.PushHead? || pc'.ReFlag?) && pc'.k == pc.k)
  {
    hide RefsOf, NextOf, PhaseOf, Minus, Resume;
  }

  /** Thread t has begun a try_get in state k, and has been at it until state m without taking a node. */
  ghost predicate GettingNothing(states: seq<State>, events: seq<Event>, k: nat, m: nat, t: ThreadId) {
    && Run(states, events) && k < m < |states| && PcOf(states[k], t).Idle? && events[k] == BeginGet(t)
    && forall l :: k < l < m ==> !PcOf(states[l], t).Idle? && !PcOf(states[l], t).DropTwo?
  }

  ghost predicate WasEmpty(states: seq<State>, k: nat, m: nat)
    requires m <= |states|
  {
    exists l :: k < l < m && states[l].head.None?
  }

  lemma OthersStep(s: State, e: Event, t: ThreadId)
    requires !PcOf(s, t).Idle? && e != Advance(t)
    ensures PcOf(Next(s, e), t) == PcOf(s, t)
  {
    hide RefsOf, NextOf, PhaseOf, Minus, Resume, Consider;
  }

  lemma {:induction false} GettingSoFar(states: seq<State>, events: seq<Event>, k: nat, m: nat, t: ThreadId)
    requires GettingNothing(states, events, k, m, t)
    ensures PcOf(states[m], t).Idle? || Getting(PcOf(states[m], t))
    ensures PcOf(states[m], t).Idle? || SeenEmpty(PcOf(states[m], t)) ==> WasEmpty(states, k, m)
    decreases m
  {
    hide Getting, SeenEmpty;
    if m == k + 1 {
      BegunGet(states[k], t);
    } else {
      GettingSoFar(states, events, k, m - 1, t);
      var s := states[m - 1];
      if events[m - 1] == Advance(t) {
        GetStep(s, t);
      } else {
        OthersStep(s, events[m - 1], t);
      }
      hide Next;
      if s.head.None? { assert k < m - 1 < m; }
    }
  }

  lemma BegunGet(s: State, t: ThreadId)
    requires PcOf(s, t).Idle?
    ensures var pc := PcOf(Next(s, BeginGet(t)), t); Getting(pc) && !SeenEmpty(pc) && !pc.Idle?
  {
  }

  /**
   * Whatever others do, a try_get comes back with nothing only if the list was empty at some moment while it was on: the
   * compare-and-swap failures on its way never make it give up.
   */
  lemma EmptyHandedOnlyIfEmpty(states: seq<State>, events: seq<Event>, k: nat, m: nat, t: ThreadId)
    requires GettingNothing(states, events, k, m, t) && PcOf(states[m], t).Idle?
    ensures exists l :: k < l < m && states[l].list == []
  {
    GettingSoFar(states, events, k, m, t);
    var l :| k < l < m && states[l].head.None?;
    RunKeepsInv(states, events, l);
    Known(states[l], t, 0);
    assert states[l].list == [];
  }
}

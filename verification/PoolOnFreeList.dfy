/**
 * The pool of BlockPool as the source has it: an array of initial blocks handed out once each, and the free list for all
 * that come back (concurrentqueue.h:3056-3114). A call of add or try_get takes many steps of FreeList, with any other
 * steps in between; the pool changes in one of them.
 */
module PoolOnFreeList {
  import opened Options
  import opened BlockIndex
  import opened SubQueue
  import B = BlockPool
  import C = DequeueCounters
  import F = FreeList
  import Q = SubQueueSafety

  /** Whoever draws blocks or gives them back: a producer's enqueuer, or one of its consumers. */
  datatype Agent = Enqueuer(i: ProducerId) | Consumer(i: ProducerId, t: C.ThreadId)

  /** undrawn: the initial blocks not handed out yet; inside: the threads in a call of the list, and for whom they are. */
  datatype Whole = Whole(system: B.System, list: F.State, undrawn: set<BlockId>, inside: map<F.ThreadId, Agent>)

  datatype Event =
    | Apart(e: B.Event)                         // a step of an agent that exchanges no block
    | DrawInitial(i: ProducerId, b: BlockId)    // try_get_block_from_initial_pool succeeds
    | CallAdd(u: F.ThreadId, a: Agent)
    | CallTryGet(u: F.ThreadId, i: ProducerId)
    | InList(u: F.ThreadId)                     // one atomic operation of a call in progress

  const INIT := Whole(B.INIT, F.INIT, NEW_SHARED.pool, map[])

  /** Where an agent stands. */
  datatype Place = Nowhere | AtEnqueue(pc: EnqueuePc) | AtWork(w: Work)

  function PlaceOf(y: B.System, a: Agent): Place {
    if a.i !in y.producers then Nowhere
    else
      match a
      case Enqueuer(i) => AtEnqueue(y.producers[i].enqueue)
      case Consumer(i, t) => if t in y.producers[i].work then AtWork(y.producers[i].work[t]) else Nowhere
  }

  /** The block an agent is about to hand to add_block_to_free_list. */
  function Giving(at: Place): Option<BlockId> {
    if at.AtEnqueue? && at.pc.UndoBlocks? && at.pc.chain != [] then Some(at.pc.chain[0])
    else if at.AtWork? && at.w.GiveBack? then Some(at.w.block)
    else None
  }

  /** An agent in requisition_block, and one that has just got a block from it. */
  predicate Asking(at: Place) { at.AtEnqueue? && at.pc.Requisition? }

  predicate Drew(at: Place, b: BlockId) { at.AtEnqueue? && at.pc.Reset? && at.pc.block == b }

  function AgentOf(i: ProducerId, a: Action): Agent {
    match a
    case BeginEnqueue(_) => Enqueuer(i)
    case AdvanceEnqueue(_, _, _) => Enqueuer(i)
    case BeginDequeue(t, _) => Consumer(i, t)
    case AdvanceDequeue(t) => Consumer(i, t)
    case EndDequeue(t) => Consumer(i, t)
  }

  predicate Busy(w: Whole, a: Agent) { exists u :: u in w.inside && w.inside[u] == a }

  /** An exchange with the pool, which the other events are for. */
  predicate Exchanges(y: B.System, i: ProducerId, a: Action) {
    var at := PlaceOf(y, AgentOf(i, a));
    || (a.AdvanceEnqueue? && Asking(at) && a.supply.FromPool?)
    || ((a.AdvanceEnqueue? || a.AdvanceDequeue?) && Giving(at).Some? && Giving(at).value < INITIAL_BLOCK_POOL_SIZE)
  }

  predicate Refused(w: Whole, e: B.Event) {
    e.Act? && (Exchanges(w.system, e.i, e.a) || Busy(w, AgentOf(e.i, e.a)))
  }

  function TurnOf(a: Agent, supply: Supply): B.Event {
    B.Act(a.i, match a case Enqueuer(_) => AdvanceEnqueue(supply, false, None) case Consumer(_, t) => AdvanceDequeue(t))
  }

  predicate Takes(list: F.State, u: F.ThreadId) {
    F.PcOf(list, u).PopHead? && list.head == Some(F.PcOf(list, u).node)
  }

  /** The step in which add raises the flag, or try_get unlinks a node, is also the agent's step on the pool. */
  function Turned(w: Whole, u: F.ThreadId): B.System
    requires u in w.inside
  {
    if F.PcOf(w.list, u).AddStart? then B.Next(w.system, TurnOf(w.inside[u], Exhausted))
    else if Takes(w.list, u) then B.Next(w.system, TurnOf(w.inside[u], FromPool(F.PcOf(w.list, u).node)))
    else w.system
  }

  function Next(w: Whole, e: Event): Whole {
    match e
    case Apart(step) => if Refused(w, step) then w else w.(system := B.Next(w.system, step))
    case DrawInitial(i, b) =>
      if !Asking(PlaceOf(w.system, Enqueuer(i))) || Busy(w, Enqueuer(i)) || b !in w.undrawn then w
      else w.(system := B.Next(w.system, TurnOf(Enqueuer(i), FromPool(b))), undrawn := w.undrawn - {b})
    case CallAdd(u, a) =>
      var given := Giving(PlaceOf(w.system, a));
      if u in w.inside || Busy(w, a) || given.None? || given.value >= INITIAL_BLOCK_POOL_SIZE then w
      else w.(list := F.Next(w.list, F.BeginAdd(u, given.value)), inside := w.inside[u := a])
    case CallTryGet(u, i) =>
      if u in w.inside || Busy(w, Enqueuer(i)) || !Asking(PlaceOf(w.system, Enqueuer(i))) then w
      else w.(list := F.Next(w.list, F.BeginGet(u)), inside := w.inside[u := Enqueuer(i)])
    case InList(u) =>
      if u !in w.inside then w
      else
        var list := F.Next(w.list, F.Advance(u));
        Whole(Turned(w, u), list, w.undrawn, if F.PcOf(list, u).Idle? then w.inside - {u} else w.inside)
  }

  // ---- the invariant ----

  /** A thread in try_get that has not got a node, which may be finishing an add somebody left it. */
  predicate Getting(pc: F.Pc) {
    || pc.GetHead? || pc.LoadRefs? || pc.IncRefs? || pc.LoadNext? || pc.PopHead? || pc.DropOne?
    || ((pc.LoadHead? || pc.LinkNext? || pc.ResetRefs? || pc.PushHead? || pc.ReFlag?) && pc.k.Retry?)
  }

  /** What a call in progress is for is still to be done, or just done. */
  ghost predicate CallOk(at: Place, pc: F.Pc) {
    && !pc.Idle?
    && (pc.AddStart? ==> pc.node < INITIAL_BLOCK_POOL_SIZE && Giving(at) == Some(pc.node))
    && (pc.DropTwo? ==> Drew(at, pc.node))
    && (Getting(pc) ==> Asking(at))
  }

  ghost predicate CallsOk(w: Whole) {
    && (forall u :: u in w.inside ==> CallOk(PlaceOf(w.system, w.inside[u]), F.PcOf(w.list, u)))
    && (forall u :: u !in w.inside ==> F.PcOf(w.list, u).Idle?)
    && (forall u, v :: u in w.inside && v in w.inside && u != v ==> w.inside[u] != w.inside[v])
  }

  /** The pool is what is left of the array and what the list has; nothing undrawn has been near the list. */
  ghost predicate PoolIs(pool: set<BlockId>, undrawn: set<BlockId>, list: F.State) {
    && (forall b: BlockId :: b in pool <==> b in undrawn || F.InPool(list, b))
    && (forall b: BlockId :: b in undrawn ==> F.PhaseOf(list, b).Out?)
  }

  ghost predicate Inv(w: Whole) {
    B.Inv(w.system) && F.Inv(w.list) && PoolIs(w.system.shared.pool, w.undrawn, w.list) && CallsOk(w)
  }

  // ---- blocks in agents' hands ----

  predicate InHand(at: Place, b: BlockId) { Giving(at) == Some(b) || Drew(at, b) }

  lemma HandIsOwned(y: B.System, a: Agent, b: BlockId)
    requires B.Inv(y) && InHand(PlaceOf(y, a), b)
    ensures a.i in y.producers && Owns(y.producers[a.i], b) && b !in y.shared.pool
    ensures a.Enqueuer? ==> b in HeldBlocks(y.producers[a.i].enqueue)
    ensures a.Consumer? ==>
              exists q: nat :: OwnsNumber(y.producers[a.i].index, q, b) && y.producers[a.i].index.phase[q] == Cleared(a.t)
  {
    hide SubQueue.Inv, Distinct, Ord, Range, NumberOk, StartOk, OwnsNumber;
    assert B.ProducerOk(y, a.i);
    if a.Consumer? {
      var p := y.producers[a.i];
      Q.RetiringKnown(p, y.shared, a.t);
      var q := Ord(p.work[a.t].start);
      GivenNumber(p.index, q, b, a.t);
    }
  }

  lemma GivenNumber(x: Index, q: nat, b: BlockId, t: C.ThreadId)
    requires q < |x.blockOf| == |x.phase| && x.blockOf[q] == b && x.phase[q] == Cleared(t)
    ensures OwnsNumber(x, q, b)
  {
  }

  /** No block is in two agents' hands. */
  lemma HandsDiffer(y: B.System, a: Agent, c: Agent, b: BlockId)
    requires B.Inv(y) && InHand(PlaceOf(y, a), b) && InHand(PlaceOf(y, c), b)
    ensures a == c
  {
    hide SubQueue.Inv, B.OwnedApart, PlaceOf;
    HandIsOwned(y, a, b);
    HandIsOwned(y, c, b);
    assert B.ProducerOk(y, a.i);
    if a.i != c.i { OwnersApart(y, a.i, c.i, b); }
  }

  lemma OwnersApart(y: B.System, i: ProducerId, j: ProducerId, b: BlockId)
    requires B.Inv(y) && i in y.producers && j in y.producers && i != j
    ensures !(Owns(y.producers[i], b) && Owns(y.producers[j], b))
  {
    hide B.ProducerOk, Owns, B.NoneLost, B.PoolOk;
    assert B.Apart(y.producers[i], y.producers[j]);
  }

  /** A block about to be given back by an agent outside the list is nobody's in the list, so add may begin. */
  lemma AddMayBegin(w: Whole, u: F.ThreadId, a: Agent, b: BlockId)
    requires Inv(w) && u !in w.inside && !Busy(w, a) && Giving(PlaceOf(w.system, a)) == Some(b)
    ensures F.PhaseOf(w.list, b).Out? && F.PcOf(w.list, u).Idle? && b !in w.undrawn
    ensures F.PcOf(F.Next(w.list, F.BeginAdd(u, b)), u) == F.AddStart(b)
  {
    hide B.Inv, F.Inv, PlaceOf, Owns, F.Holders;
    HandIsOwned(w.system, a, b);
    var phase := F.PhaseOf(w.list, b);
    if phase.Offered? || phase.Taken? {
      F.Known(w.list, phase.owner, b);
      assert InHand(PlaceOf(w.system, w.inside[phase.owner]), b);
      HandsDiffer(w.system, a, w.inside[phase.owner], b);
    }
  }

  // ---- steps on the queue ----

  /** A step of one agent leaves the others where they stand. */
  lemma OthersStand(y: B.System, i: ProducerId, a: Action, c: Agent)
    requires B.Inv(y) && AgentOf(i, a) != c
    ensures PlaceOf(B.Next(y, B.Act(i, a)), c) == PlaceOf(y, c)
  {
    hide B.Inv, StepEnqueue, StepWork, C.Next;
    if i in y.producers && c.i == i {
      assert B.ProducerOk(y, i) by { hide B.ProducerOk; ProducerKnown(y, i); }
      var p, s := y.producers[i], y.shared;
      hide SubQueue.Inv, Distinct, B.OwnedApart;
      if a.AdvanceEnqueue? {
        B.StoredOrNot(p, s, a.supply, a.fails, a.garbage);
      } else if a.AdvanceDequeue? && a.t in p.work {
        B.WorkLeavesQueue(p, s, a.t);
        OthersWork(p, s, a.t);
      } else if !a.BeginEnqueue? {
        B.AtCounters(p, s, a);
      }
    }
  }

  lemma ProducerKnown(y: B.System, i: ProducerId)
    requires B.Inv(y) && i in y.producers
    ensures B.ProducerOk(y, i)
  {
  }

  lemma OthersWork(p: Producer, s: Shared, t: C.ThreadId)
    requires t in p.work
    ensures var p' := StepWork(p, s, t, p.work[t]).0;
      forall c :: c != t ==> (c in p'.work <==> c in p.work) && (c in p.work ==> p'.work[c] == p.work[c])
  {
    hide Ring, Ord, Offset, Base, NextBlock, Indices;
  }

  /** Steps that exchange nothing leave the pool alone. */
  lemma ApartKeepsPool(y: B.System, i: ProducerId, a: Action)
    requires !Exchanges(y, i, a)
    ensures B.Next(y, B.Act(i, a)).shared.pool == y.shared.pool
  {
    hide Ring, Ord, Offset, Base, NextBlock, Indices, Doubled, LookedUp, Unwind, UnbuildFrom, Onward, C.Next, BlockAt, BlockOf;
  }

  lemma GiveTurn(y: B.System, a: Agent, b: BlockId)
    requires Giving(PlaceOf(y, a)) == Some(b) && b < INITIAL_BLOCK_POOL_SIZE
    ensures B.Next(y, TurnOf(a, Exhausted)).shared.pool == y.shared.pool + {b}
  {
    hide Ring, Ord, Offset, Base, NextBlock, Indices, Doubled, LookedUp, Unwind, UnbuildFrom, Onward, C.Next, BlockAt, BlockOf;
  }

  lemma DrawTurn(y: B.System, i: ProducerId, b: BlockId)
    requires Asking(PlaceOf(y, Enqueuer(i))) && b in y.shared.pool
    ensures var y' := B.Next(y, TurnOf(Enqueuer(i), FromPool(b)));
      y'.shared.pool == y.shared.pool - {b} && Drew(PlaceOf(y', Enqueuer(i)), b)
  {
    hide Ring, Ord, Offset, Base, Doubled, LookedUp, Unwind, UnbuildFrom, Onward, C.Next, BlockAt, BlockOf;
  }

  // ---- steps in the list ----

  /** The list's own pool gains a node where add raises the flag, loses one where try_get unlinks it. */
  lemma ListTurn(list: F.State, u: F.ThreadId)
    requires F.Inv(list) && !F.PcOf(list, u).Idle?
    ensures var list', pc := F.Next(list, F.Advance(u)), F.PcOf(list, u);
      && (pc.AddStart? ==> forall b :: F.InPool(list', b) <==> F.InPool(list, b) || b == pc.node)
      && (Takes(list, u) ==> F.InPool(list, pc.node) && forall b :: F.InPool(list', b) <==> F.InPool(list, b) && b != pc.node)
      && (!pc.AddStart? && !Takes(list, u) ==> forall b :: F.InPool(list', b) <==> F.InPool(list, b))
  {
    hide F.Inv, F.Holders;
    if !F.PcOf(list, u).GetHead? {
      var n := F.PcOf(list, u).node;
      F.Known(list, u, n);
      F.NodeInPool(list, u);
      forall b | b != n ensures F.InPool(F.StepThread(list, u), b) <==> F.InPool(list, b) { F.OthersInPool(list, u, b); }
    }
  }

  /** A block nobody has offered is left alone. */
  lemma OutStaysOut(list: F.State, u: F.ThreadId, b: BlockId)
    requires F.Inv(list) && F.PhaseOf(list, b).Out?
    ensures F.PhaseOf(F.Next(list, F.Advance(u)), b).Out?
  {
    hide F.Inv, F.Holders;
    F.Known(list, u, b);
    if Takes(list, u) { assert list.list[0] in list.list; }
  }

  lemma OthersGoOn(list: F.State, u: F.ThreadId, v: F.ThreadId)
    requires u != v
    ensures F.PcOf(F.Next(list, F.Advance(u)), v) == F.PcOf(list, v)
  {
    hide F.RefsOf, F.NextOf, F.Minus, F.Consider, F.Resume;
    var pc := F.PcOf(list, u);
    if pc.AddStart? || pc.ReFlag? || pc.DropOne? {
    } else if pc.PushHead? || pc.PopHead? || pc.DropTwo? {
    }
  }

  /** How a call goes on. */
  lemma CallGoesOn(list: F.State, u: F.ThreadId)
    ensures var pc, pc' := F.PcOf(list, u), F.PcOf(F.Next(list, F.Advance(u)), u);
      && !pc'.AddStart?
      && (Takes(list, u) ==> pc' == F.DropTwo(pc.node)) && (pc'.DropTwo? ==> Takes(list, u))
      && (Getting(pc') ==> Getting(pc) && !Takes(list, u))
  {
  }

  // ---- every step keeps the invariant ----

  lemma SystemStepKeeps(w: Whole, i: ProducerId, a: Action)
    requires Inv(w) && B.Windowed(w.system) && !Busy(w, AgentOf(i, a))
    ensures var w' := w.(system := B.Next(w.system, B.Act(i, a))); B.Inv(w'.system) && CallsOk(w')
  {
    hide B.Inv, F.Inv, B.Windowed, PoolIs, CallOk, PlaceOf, B.Next;
    B.NextKeepsInv(w.system, B.Act(i, a));
    forall u | u in w.inside
      ensures CallOk(PlaceOf(B.Next(w.system, B.Act(i, a)), w.inside[u]), F.PcOf(w.list, u))
    {
      OthersStand(w.system, i, a, w.inside[u]);
    }
  }

  lemma CreateKeepsInv(w: Whole, e: B.Event)
    requires Inv(w) && B.Windowed(w.system) && e.Create?
    ensures Inv(w.(system := B.Next(w.system, e)))
  {
    hide B.Inv, F.Inv, B.Windowed, PoolIs;
    B.NextKeepsInv(w.system, e);
    var y' := B.Next(w.system, e);
    forall u | u in w.inside ensures CallOk(PlaceOf(y', w.inside[u]), F.PcOf(w.list, u)) {
      assert CallOk(PlaceOf(w.system, w.inside[u]), F.PcOf(w.list, u));
    }
  }

  lemma ApartKeepsInv(w: Whole, e: B.Event)
    requires Inv(w) && B.Windowed(w.system) && !Refused(w, e)
    ensures Inv(w.(system := B.Next(w.system, e)))
  {
    hide B.Inv, F.Inv, B.Windowed, PoolIs, CallsOk, Exchanges, Busy, B.Next;
    if e.Create? {
      CreateKeepsInv(w, e);
    } else {
      SystemStepKeeps(w, e.i, e.a);
      ApartKeepsPool(w.system, e.i, e.a);
    }
  }

  lemma DrawInitialKeepsInv(w: Whole, i: ProducerId, b: BlockId)
    requires Inv(w) && B.Windowed(w.system)
    requires Asking(PlaceOf(w.system, Enqueuer(i))) && !Busy(w, Enqueuer(i)) && b in w.undrawn
    ensures Inv(Next(w, DrawInitial(i, b)))
  {
    hide B.Inv, F.Inv, B.Windowed, CallsOk, Asking, Busy, B.Next, PlaceOf, Drew;
    SystemStepKeeps(w, i, AdvanceEnqueue(FromPool(b), false, None));
    DrawTurn(w.system, i, b);
    SameCalls(w.(system := B.Next(w.system, TurnOf(Enqueuer(i), FromPool(b)))), Next(w, DrawInitial(i, b)));
  }

  lemma SameCalls(w: Whole, w': Whole)
    requires CallsOk(w) && w'.system == w.system && w'.list == w.list && w'.inside == w.inside
    ensures CallsOk(w')
  {
  }

  /** A thread begins a call for an agent that is in none. */
  lemma CallBegins(w: Whole, u: F.ThreadId, a: Agent, list: F.State)
    requires CallsOk(w) && u !in w.inside && !Busy(w, a) && CallOk(PlaceOf(w.system, a), F.PcOf(list, u))
    requires forall v :: v != u ==> F.PcOf(list, v) == F.PcOf(w.list, v)
    ensures CallsOk(w.(list := list, inside := w.inside[u := a]))
  {
    hide CallOk, PlaceOf;
  }

  lemma OfferKeeps(w: Whole, u: F.ThreadId, b: BlockId)
    requires PoolIs(w.system.shared.pool, w.undrawn, w.list) && F.PcOf(w.list, u).Idle?
    requires F.PhaseOf(w.list, b).Out? && b !in w.undrawn
    ensures var list := F.Next(w.list, F.BeginAdd(u, b));
      && PoolIs(w.system.shared.pool, w.undrawn, list) && F.PcOf(list, u) == F.AddStart(b)
      && forall v :: v != u ==> F.PcOf(list, v) == F.PcOf(w.list, v)
  {
    hide F.StepThread;
  }

  lemma SeekKeeps(w: Whole, u: F.ThreadId)
    requires PoolIs(w.system.shared.pool, w.undrawn, w.list) && F.PcOf(w.list, u).Idle?
    ensures var list := F.Next(w.list, F.BeginGet(u));
      && PoolIs(w.system.shared.pool, w.undrawn, list) && F.PcOf(list, u) == F.GetHead
      && forall v :: v != u ==> F.PcOf(list, v) == F.PcOf(w.list, v)
  {
    hide F.StepThread;
  }

  lemma CallAddKeepsInv(w: Whole, u: F.ThreadId, a: Agent, b: BlockId)
    requires Inv(w) && u !in w.inside && !Busy(w, a) && Giving(PlaceOf(w.system, a)) == Some(b) && b < INITIAL_BLOCK_POOL_SIZE
    ensures Inv(Next(w, CallAdd(u, a)))
  {
    hide B.Inv, F.Inv, Busy, CallsOk, PlaceOf, Giving, PoolIs, F.Next, F.PcOf, F.PhaseOf;
    AddMayBegin(w, u, a, b);
    F.BeginAddKeepsInv(w.list, u, b);
    OfferKeeps(w, u, b);
    CallBegins(w, u, a, F.Next(w.list, F.BeginAdd(u, b)));
    assert Next(w, CallAdd(u, a)) == w.(list := F.Next(w.list, F.BeginAdd(u, b)), inside := w.inside[u := a]);
  }

  lemma CallTryGetKeepsInv(w: Whole, u: F.ThreadId, i: ProducerId)
    requires Inv(w) && u !in w.inside && !Busy(w, Enqueuer(i)) && Asking(PlaceOf(w.system, Enqueuer(i)))
    ensures Inv(Next(w, CallTryGet(u, i)))
  {
    hide B.Inv, F.Inv, Busy, PlaceOf, Asking, PoolIs, F.Next, F.PcOf, F.PhaseOf, CallOk;
    assert F.PcOf(w.list, u).Idle?;
    hide CallsOk;
    F.NextKeepsInv(w.list, F.BeginGet(u));
    SeekKeeps(w, u);
    SeekingOk(PlaceOf(w.system, Enqueuer(i)));
    CallBegins(w, u, Enqueuer(i), F.Next(w.list, F.BeginGet(u)));
    assert Next(w, CallTryGet(u, i)) == w.(list := F.Next(w.list, F.BeginGet(u)), inside := w.inside[u := Enqueuer(i)]);
  }

  lemma SeekingOk(at: Place)
    requires Asking(at)
    ensures CallOk(at, F.GetHead)
  {
  }

  /** What a call's step does to the agent it is for, and to the pool. */
  lemma TurnedKeeps(w: Whole, u: F.ThreadId)
    requires Inv(w) && B.Windowed(w.system) && u in w.inside
    ensures B.Inv(Turned(w, u)) && PoolIs(Turned(w, u).shared.pool, w.undrawn, F.Next(w.list, F.Advance(u)))
    ensures forall v :: v in w.inside && v != u ==> PlaceOf(Turned(w, u), w.inside[v]) == PlaceOf(w.system, w.inside[v])
    ensures Takes(w.list, u) ==> Drew(PlaceOf(Turned(w, u), w.inside[u]), F.PcOf(w.list, u).node)
  {
    hide B.Inv, F.Inv, B.Windowed, PlaceOf, B.Next, F.Next, F.InPool, F.PhaseOf;
    var a, pc := w.inside[u], F.PcOf(w.list, u);
    assert CallOk(PlaceOf(w.system, a), pc);
    ListTurn(w.list, u);
    forall b | b in w.undrawn ensures F.PhaseOf(F.Next(w.list, F.Advance(u)), b).Out? { OutStaysOut(w.list, u, b); }
    if pc.AddStart? {
      GiveTurn(w.system, a, pc.node);
      TurnKeeps(w, u, Exhausted);
    } else if Takes(w.list, u) {
      AskingIsEnqueuer(w.system, a);
      NotUndrawn(w, pc.node);
      DrawTurn(w.system, a.i, pc.node);
      TurnKeeps(w, u, FromPool(pc.node));
    }
  }

  lemma AskingIsEnqueuer(y: B.System, a: Agent)
    requires Asking(PlaceOf(y, a))
    ensures a == Enqueuer(a.i)
  {
  }

  lemma NotUndrawn(w: Whole, b: BlockId)
    requires PoolIs(w.system.shared.pool, w.undrawn, w.list) && F.InPool(w.list, b)
    ensures b !in w.undrawn && b in w.system.shared.pool
  {
  }

  lemma TurnKeeps(w: Whole, u: F.ThreadId, supply: Supply)
    requires Inv(w) && B.Windowed(w.system) && u in w.inside
    ensures var y' := B.Next(w.system, TurnOf(w.inside[u], supply));
      && B.Inv(y') && forall v :: v in w.inside && v != u ==> PlaceOf(y', w.inside[v]) == PlaceOf(w.system, w.inside[v])
  {
    hide B.Inv, F.Inv, B.Windowed, PoolIs, CallOk, PlaceOf, B.Next;
    var e := TurnOf(w.inside[u], supply);
    B.NextKeepsInv(w.system, e);
    forall v | v in w.inside && v != u ensures PlaceOf(B.Next(w.system, e), w.inside[v]) == PlaceOf(w.system, w.inside[v]) {
      OthersStand(w.system, e.i, e.a, w.inside[v]);
    }
  }

  lemma InListKeepsInv(w: Whole, u: F.ThreadId)
    requires Inv(w) && B.Windowed(w.system) && u in w.inside
    ensures Inv(Next(w, InList(u)))
  {
    hide B.Inv, F.Inv, B.Windowed, PoolIs, PlaceOf, B.Next, F.StepThread, Turned;
    TurnedKeeps(w, u);
    F.NextKeepsInv(w.list, F.Advance(u));
    CallGoesOn(w.list, u);
    hide Getting, Takes;
    var w' := Next(w, InList(u));
    assert CallOk(PlaceOf(w.system, w.inside[u]), F.PcOf(w.list, u));
    assert !F.PcOf(w'.list, u).Idle? ==> CallOk(PlaceOf(w'.system, w.inside[u]), F.PcOf(w'.list, u)) by {
      if Getting(F.PcOf(w'.list, u)) { StillAsking(w, u); }
    }
    hide CallOk;
    forall v | v != u ensures F.PcOf(w'.list, v) == F.PcOf(w.list, v) { OthersGoOn(w.list, u, v); }
  }

  lemma StillAsking(w: Whole, u: F.ThreadId)
    requires Inv(w) && u in w.inside && Getting(F.PcOf(w.list, u)) && !Takes(w.list, u)
    ensures Turned(w, u) == w.system && Asking(PlaceOf(w.system, w.inside[u]))
  {
    hide B.Inv, F.Inv, PoolIs, PlaceOf;
    assert CallOk(PlaceOf(w.system, w.inside[u]), F.PcOf(w.list, u));
  }

  /** Every step of queue, array and list keeps them together. */
  lemma NextKeepsInv(w: Whole, e: Event)
    requires Inv(w) && B.Windowed(w.system)
    ensures Inv(Next(w, e))
  {
    hide Inv, B.Windowed, Refused, Asking, Giving, PlaceOf, Busy, Turned, B.Next, F.Next;
    match e {
      case Apart(step) => if !Refused(w, step) { ApartKeepsInv(w, step); }
      case DrawInitial(i, b) =>
        if Asking(PlaceOf(w.system, Enqueuer(i))) && !Busy(w, Enqueuer(i)) && b in w.undrawn { DrawInitialKeepsInv(w, i, b); }
      case CallAdd(u, a) =>
        var given := Giving(PlaceOf(w.system, a));
        if u !in w.inside && !Busy(w, a) && given.Some? && given.value < INITIAL_BLOCK_POOL_SIZE {
          CallAddKeepsInv(w, u, a, given.value);
        }
      case CallTryGet(u, i) =>
        if u !in w.inside && !Busy(w, Enqueuer(i)) && Asking(PlaceOf(w.system, Enqueuer(i))) { CallTryGetKeepsInv(w, u, i); }
      case InList(u) => if u in w.inside { InListKeepsInv(w, u); }
    }
  }

  // ---- whole runs ----

  ghost predicate Run(states: seq<Whole>, events: seq<Event>) {
    && |states| == |events| + 1 && states[0] == INIT
    && (forall k :: 0 <= k < |events| ==> B.Windowed(states[k].system) && states[k + 1] == Next(states[k], events[k]))
  }

  lemma InitOk()
    ensures Inv(INIT)
  {
    B.RunKeepsInv([B.INIT], [], 0);
    F.RunKeepsInv([F.INIT], [], 0);
    hide B.Inv, F.Inv;
  }

  lemma {:induction false} RunKeepsInv(states: seq<Whole>, events: seq<Event>, k: nat)
    requires Run(states, events) && k < |states|
    ensures Inv(states[k])
  {
    hide Inv, Next, B.Windowed;
    if k == 0 {
      InitOk();
    } else {
      RunKeepsInv(states, events, k - 1);
      NextKeepsInv(states[k - 1], events[k - 1]);
    }
  }

  /** Seen from the queue, every step is none, or one on an atomic pool. */
  lemma StepsAreAtomic(w: Whole, e: Event)
    ensures Next(w, e).system == w.system || exists step: B.Event :: Next(w, e).system == B.Next(w.system, step)
  {
    hide B.Next, F.Next, Refused, Asking, Giving, PlaceOf, Busy;
  }

  /**
   * In every run the pool is what is left of the array and what the free list has; a call of add finds its block in no
   * other call's hands; and the node try_get unlinks is one the pool has, and becomes the caller's.
   */
  lemma ListRealisesPool(states: seq<Whole>, events: seq<Event>, k: nat, u: F.ThreadId, a: Agent)
    requires Run(states, events) && k < |states|
    ensures PoolIs(states[k].system.shared.pool, states[k].undrawn, states[k].list)
    ensures var w := states[k]; var given := Giving(PlaceOf(w.system, a));
      u !in w.inside && !Busy(w, a) && given.Some? ==>
        F.PhaseOf(w.list, given.value).Out? && F.PcOf(F.Next(w.list, F.BeginAdd(u, given.value)), u) == F.AddStart(given.value)
    ensures var w := states[k];
      u in w.inside && Takes(w.list, u) && B.Windowed(w.system) ==>
        var n := F.PcOf(w.list, u).node;
        && n in w.system.shared.pool && n !in Turned(w, u).shared.pool
        && Drew(PlaceOf(Turned(w, u), w.inside[u]), n)
  {
    hide B.Inv, F.Inv, B.Windowed, CallsOk, PlaceOf, Giving, Busy, Turned, Drew, B.Next, F.Next;
    RunKeepsInv(states, events, k);
    var w, given := states[k], Giving(PlaceOf(states[k].system, a));
    if u !in w.inside && !Busy(w, a) && given.Some? { AddMayBegin(w, u, a, given.value); }
    if u in w.inside && Takes(w.list, u) && B.Windowed(w.system) {
      TurnedKeeps(w, u);
      ListTurn(w.list, u);
      NotUndrawn(w, F.PcOf(w.list, u).node);
    }
  }
}

/**
 * The four counters of a sub-queue (tailIndex, headIndex, dequeueOptimisticCount, dequeueOvercommit) under every
 * interleaving of one enqueuer with any number of consumers. Each event is one atomic operation of dequeue_bulk;
 * the single-element dequeue is the same program with max == 1.
 */
module DequeueCounters {
  import opened CircularIndex

  type ThreadId = nat

  /** What became of one unit drawn from dequeueOptimisticCount. The history `tickets` below has one entry per unit. */
  datatype Ticket =
    | Pending(owner: ThreadId)   // drawn, the second look at tailIndex still to come
    | Passed(owner: ThreadId)    // will be exchanged for an element
    | Claimed                    // exchanged: counted in headIndex
    | Failed                     // handed back: counted in dequeueOvercommit

  datatype Pc =
    | Idle
    | Start(max: nat)
    | LoadedTail(max: nat, tail: nat)
    | LoadedOver(max: nat, tail: nat, over: nat)
    | Attempt(over: nat, desired: nat)
    | Ticketed(over: nat, desired: nat, my: nat)
    | Partial(actual: nat, desired: nat, my: nat)
    | Passing(actual: nat, my: nat)
    | Failing(desired: nat, my: nat)
    | Holding(first: nat, count: nat)

  datatype State = State(
    tail: nat, head: nat, opt: nat, over: nat,
    pcs: map<ThreadId, Pc>,
    tickets: seq<Ticket>,      // history: the fate of every unit of opt
    claims: seq<ThreadId>      // history: who took each index below head
  )

  datatype Event = Enqueue(count: nat) | Begin(t: ThreadId, max: nat) | Advance(t: ThreadId) | Release(t: ThreadId)

  const INIT := State(0, 0, 0, 0, map[], [], [])

  function PcOf(s: State, t: ThreadId): Pc {
    if t in s.pcs then s.pcs[t] else Idle
  }

  function Goto(s: State, t: ThreadId, pc: Pc): State {
    s.(pcs := s.pcs[t := pc])
  }

  function Fill<T>(n: nat, x: T): (r: seq<T>)
    ensures |r| == n && forall k :: 0 <= k < n ==> r[k] == x
  {
    seq(n, _ => x)
  }

  function Mark(ts: seq<Ticket>, lo: nat, n: nat, v: Ticket): (r: seq<Ticket>)
    requires lo + n <= |ts|
    ensures |r| == |ts|
    ensures forall k :: 0 <= k < |ts| ==> r[k] == if lo <= k < lo + n then v else ts[k]
  {
    ts[..lo] + Fill(n, v) + ts[lo + n..]
  }

  function Min(a: nat, b: nat): nat {
    if a < b then a else b
  }

  /** One atomic operation of thread t. */
  function StepThread(s: State, t: ThreadId): State {
    match PcOf(s, t)
    case Idle => s
    case Start(max) => Goto(s, t, LoadedTail(max, s.tail))
    case LoadedTail(max, tail) => Goto(s, t, LoadedOver(max, tail, s.over))
    case LoadedOver(max, tail, over) =>
      var desired := Available(tail, s.opt, over);
      if desired > 0 then Goto(s, t, Attempt(over, Min(desired, max))) else Goto(s, t, Idle)
    case Attempt(over, desired) =>
      Goto(s.(opt := s.opt + desired, tickets := s.tickets + Fill(desired, Pending(t))), t,
           Ticketed(over, desired, s.opt))
    case Ticketed(over, desired, my) =>
      var actual := Min(desired, Available(s.tail, my, over));
      if Available(s.tail, my, over) == 0 || my + desired > |s.tickets| then Goto(s, t, Failing(desired, my))
      else
        Goto(s.(tickets := Mark(s.tickets, my, actual, Passed(t))), t,
             if actual < desired then Partial(actual, desired, my) else Passing(actual, my))
    case Partial(actual, desired, my) =>
      if actual <= desired && my + desired <= |s.tickets| then
        Goto(s.(over := s.over + (desired - actual),
                tickets := Mark(s.tickets, my + actual, desired - actual, Failed)), t, Passing(actual, my))
      else s
    case Passing(actual, my) =>
      if my + actual <= |s.tickets| then
        Goto(s.(head := s.head + actual, tickets := Mark(s.tickets, my, actual, Claimed),
                claims := s.claims + Fill(actual, t)), t, Holding(s.head, actual))
      else s
    case Failing(desired, my) =>
      if my + desired <= |s.tickets| then
        Goto(s.(over := s.over + desired, tickets := Mark(s.tickets, my, desired, Failed)), t, Idle)
      else s
    case Holding(_, _) => s
  }

  function Next(s: State, e: Event): State {
    match e
    case Enqueue(n) => s.(tail := s.tail + n)
    case Begin(t, max) => if PcOf(s, t).Idle? then Goto(s, t, Start(max)) else s
    case Advance(t) => StepThread(s, t)
    case Release(t) => if PcOf(s, t).Holding? then Goto(s, t, Idle) else s
  }

  /** The interval of tickets a thread has drawn and not yet settled. */
  function Lo(pc: Pc): nat {
    match pc
    case Ticketed(_, _, my) => my
    case Partial(_, _, my) => my
    case Passing(_, my) => my
    case Failing(_, my) => my
    case _ => 0
  }

  function Units(pc: Pc): nat {
    match pc
    case Ticketed(_, d, _) => d
    case Partial(_, d, _) => d
    case Passing(a, _) => a
    case Failing(d, _) => d
    case _ => 0
  }

  predicate Has(pc: Pc, k: int) {
    Lo(pc) <= k < Lo(pc) + Units(pc)
  }

  datatype Kind = Waiting | Winning | Taken | GivenBack

  function KindOf(k: Ticket): Kind {
    match k
    case Pending(_) => Waiting
    case Passed(_) => Winning
    case Claimed => Taken
    case Failed => GivenBack
  }

  function Count(ts: seq<Ticket>, v: Kind): (n: nat)
    ensures n <= |ts|
  {
    if ts == [] then 0 else Count(ts[..|ts| - 1], v) + if KindOf(ts[|ts| - 1]) == v then 1 else 0
  }

  predicate Passes(k: Ticket) {
    k.Passed? || k.Claimed?
  }

  /** The comparisons a thread is about to make are within reach of the wrapping order. */
  ghost predicate Windowed(s: State) {
    forall t ::
      match PcOf(s, t)
      case LoadedOver(_, tail, over) => Near(s.opt - over, tail)
      case Ticketed(over, _, my) => Near(my - over, s.tail)
      case _ => true
  }

  /** A thread's local variables agree with the history. */
  ghost predicate PcOk(s: State, t: ThreadId) {
    match PcOf(s, t)
    case LoadedOver(_, _, over) => over <= s.over
    case Attempt(over, _) => over <= s.over
    case Ticketed(over, d, my) =>
      && my + d <= |s.tickets|
      && over <= Count(s.tickets[..my], GivenBack)
      && (forall k :: my <= k < my + d ==> s.tickets[k] == Pending(t))
    case Partial(a, d, my) =>
      && a <= d && my + d <= |s.tickets|
      && (forall k :: my <= k < my + a ==> s.tickets[k] == Passed(t))
      && (forall k :: my + a <= k < my + d ==> s.tickets[k] == Pending(t))
    case Passing(a, my) =>
      && my + a <= |s.tickets|
      && (forall k :: my <= k < my + a ==> s.tickets[k] == Passed(t))
    case Failing(d, my) =>
      && my + d <= |s.tickets|
      && (forall k :: my <= k < my + d ==> s.tickets[k] == Pending(t))
    case Holding(first, n) =>
      && first + n <= |s.claims|
      && (forall k :: first <= k < first + n ==> s.claims[k] == t)
    case _ => true
  }

  ghost predicate Held(s: State, k: nat)
    requires k < |s.tickets|
  {
    s.tickets[k].Pending? || s.tickets[k].Passed? ==>
      Has(PcOf(s, s.tickets[k].owner), k)
  }

  /** Among the first k + 1 tickets, those not handed back fit below tailIndex, if ticket k passes. */
  ghost predicate Fits(s: State, k: nat)
    requires k < |s.tickets|
  {
    Passes(s.tickets[k]) ==> k + 1 - Count(s.tickets[..k], GivenBack) <= s.tail
  }

  ghost predicate Inv(s: State) {
    && |s.tickets| == s.opt && |s.claims| == s.head
    && s.over == Count(s.tickets, GivenBack)
    && s.head == Count(s.tickets, Taken)
    && (forall t :: PcOk(s, t))
    && (forall k :: 0 <= k < |s.tickets| ==> Held(s, k))
    && (forall k :: 0 <= k < |s.tickets| ==> Fits(s, k))
  }

  // ---- counting ----

  lemma {:induction false} CountAppend(a: seq<Ticket>, b: seq<Ticket>, v: Kind)
    ensures Count(a + b, v) == Count(a, v) + Count(b, v)
  {
    if b == [] {
      assert a + b == a;
    } else {
      assert (a + b)[..|a + b| - 1] == a + b[..|b| - 1];
      CountAppend(a, b[..|b| - 1], v);
    }
  }

  lemma {:induction false} CountUniform(a: seq<Ticket>, x: Kind, v: Kind)
    requires forall k :: 0 <= k < |a| ==> KindOf(a[k]) == x
    ensures Count(a, v) == if v == x then |a| else 0
  {
    if a != [] {
      CountUniform(a[..|a| - 1], x, v);
    }
  }

  /** Settling n tickets of kind `was` as `v` moves n from one count to the other. */
  lemma CountMark(ts: seq<Ticket>, lo: nat, n: nat, v: Ticket, was: Kind, x: Kind)
    requires lo + n <= |ts|
    requires forall k :: lo <= k < lo + n ==> KindOf(ts[k]) == was
    ensures Count(Mark(ts, lo, n, v), x) ==
            Count(ts, x) - (if x == was then n else 0) + (if x == KindOf(v) then n else 0)
  {
    var a, b, c := ts[..lo], ts[lo..lo + n], ts[lo + n..];
    assert ts == a + b + c;
    CountAppend(a + b, c, x);
    CountAppend(a, b, x);
    CountUniform(b, was, x);
    CountAppend(a + Fill(n, v), c, x);
    CountAppend(a, Fill(n, v), x);
    CountUniform(Fill(n, v), KindOf(v), x);
  }

  /** Tickets once handed back stay handed back, so counts of them below a fixed ticket only grow. */
  lemma {:induction false} CountGrows(a: seq<Ticket>, b: seq<Ticket>)
    requires |a| == |b|
    requires forall k :: 0 <= k < |a| ==> a[k].Failed? ==> b[k].Failed?
    ensures Count(a, GivenBack) <= Count(b, GivenBack)
  {
    if a != [] {
      CountGrows(a[..|a| - 1], b[..|b| - 1]);
    }
  }

  lemma {:induction false} CountTotal(ts: seq<Ticket>)
    ensures Count(ts, Waiting) + Count(ts, Winning) + Count(ts, Taken) + Count(ts, GivenBack) == |ts|
  {
    if ts != [] {
      CountTotal(ts[..|ts| - 1]);
    }
  }

  /** The highest passing ticket bounds how many tickets pass in all. */
  lemma {:induction false} PassingFit(s: State, m: nat)
    requires m <= |s.tickets|
    requires forall k :: 0 <= k < |s.tickets| ==> Fits(s, k)
    ensures Count(s.tickets[..m], Taken) + Count(s.tickets[..m], Winning) <= s.tail
  {
    if m > 0 {
      assert s.tickets[..m][..m - 1] == s.tickets[..m - 1];
      assert Fits(s, m - 1);
      CountTotal(s.tickets[..m]);
      PassingFit(s, m - 1);
    }
  }

  // ---- every event keeps the invariant ----

  predicate OwnedBy(k: Ticket, t: ThreadId) {
    k == Pending(t) || k == Passed(t)
  }

  predicate OwnedByOther(k: Ticket, t: ThreadId) {
    (k.Pending? || k.Passed?) && k.owner != t
  }

  /** What a thread's settling of tickets may do to the history. */
  ghost predicate Settles(s: State, s': State, t: ThreadId) {
    && |s'.tickets| == |s.tickets|
    && (forall k :: 0 <= k < |s.tickets| ==> s.tickets[k].Failed? ==> s'.tickets[k].Failed?)
    && (forall k :: 0 <= k < |s.tickets| ==>
          s'.tickets[k] == s.tickets[k] || (OwnedBy(s.tickets[k], t) && !OwnedByOther(s'.tickets[k], t)))
    && s'.tail == s.tail && s'.over >= s.over
    && |s'.claims| >= |s.claims| && s'.claims[..|s.claims|] == s.claims
    && (forall u :: u != t ==> PcOf(s', u) == PcOf(s, u))
  }

  lemma OthersUndisturbed(s: State, s': State, t: ThreadId, u: ThreadId)
    requires Settles(s, s', t) && u != t && PcOk(s, u)
    ensures PcOk(s', u)
  {
    var pc := PcOf(s, u);
    assert PcOf(s', u) == pc;
    if pc.Ticketed? {
      CountGrows(s.tickets[..pc.my], s'.tickets[..pc.my]);
    }
    if pc.Holding? {
      assert forall k :: 0 <= k < |s.claims| ==> s'.claims[k] == s'.claims[..|s.claims|][k];
    }
  }

  lemma HistoryKept(s: State, s': State, t: ThreadId)
    requires Inv(s) && Settles(s, s', t) && PcOk(s', t)
    requires forall k :: 0 <= k < |s.tickets| && Passes(s'.tickets[k]) ==>
               Passes(s.tickets[k]) || k + 1 - Count(s'.tickets[..k], GivenBack) <= s'.tail
    requires forall k :: 0 <= k < |s.tickets| ==>
               (OwnedBy(s'.tickets[k], t) ==> Held(s', k))
    requires |s'.tickets| == s'.opt && |s'.claims| == s'.head
    requires s'.over == Count(s'.tickets, GivenBack) && s'.head == Count(s'.tickets, Taken)
    ensures Inv(s')
  {
    forall u ensures PcOk(s', u) {
      if u != t {
        OthersUndisturbed(s, s', t, u);
      }
    }
    forall k | 0 <= k < |s'.tickets| ensures Held(s', k) {
      assert Held(s, k);
    }
    forall k | 0 <= k < |s'.tickets| ensures Fits(s', k) {
      assert Fits(s, k);
      CountGrows(s.tickets[..k], s'.tickets[..k]);
    }
  }

  lemma ThreadOk(s: State, t: ThreadId)
    requires Inv(s)
    ensures PcOk(s, t)
  {
  }

  lemma DrawThreads(s: State, t: ThreadId)
    requires Inv(s) && PcOf(s, t).Attempt?
    ensures forall u :: PcOk(StepThread(s, t), u)
  {
    var s' := StepThread(s, t);
    assert s'.tickets[..s.opt] == s.tickets;
    forall u ensures PcOk(s', u) {
      assert PcOk(s, u);
      assert PcOk(s, t);
      hide Inv;
      if u != t && PcOf(s, u).Ticketed? {
        assert s'.tickets[..PcOf(s, u).my] == s.tickets[..PcOf(s, u).my];
      }
    }
  }

  lemma DrawTickets(s: State, t: ThreadId)
    requires Inv(s) && PcOf(s, t).Attempt?
    ensures var s' := StepThread(s, t); forall k :: 0 <= k < |s'.tickets| ==> Held(s', k) && Fits(s', k)
  {
    hide PcOk;
    var s' := StepThread(s, t);
    forall k | 0 <= k < |s'.tickets| ensures Held(s', k) && Fits(s', k) {
      if k < s.opt {
        assert Held(s, k) && Fits(s, k);
        assert s'.tickets[..k] == s.tickets[..k];
      }
    }
  }

  lemma DrawKeepsInv(s: State, t: ThreadId)
    requires Inv(s) && PcOf(s, t).Attempt?
    ensures Inv(StepThread(s, t))
  {
    var s' := StepThread(s, t);
    var d := Fill(PcOf(s, t).desired, Pending(t));
    DrawThreads(s, t);
    DrawTickets(s, t);
    hide PcOk, Held, Fits;
    forall v ensures Count(s'.tickets, v) == Count(s.tickets, v) + if v == Waiting then PcOf(s, t).desired else 0 {
      CountAppend(s.tickets, d, v);
      CountUniform(d, Waiting, v);
    }
  }


  lemma SecondLookKeepsInv(s: State, t: ThreadId)
    requires Inv(s) && Windowed(s) && PcOf(s, t).Ticketed?
    ensures Inv(StepThread(s, t))
  {
    hide Available;
    var s' := StepThread(s, t);
    var pc := PcOf(s, t);
    ThreadOk(s, t);
    assert match PcOf(s, t) case Ticketed(over, _, my) => Near(my - over, s.tail) case _ => true;
    AvailableIsDifference(s.tail, pc.my, pc.over);
    if Available(s.tail, pc.my, pc.over) == 0 {
      forall k | 0 <= k < |s.tickets| && OwnedBy(s'.tickets[k], t) ensures Held(s', k) {
        assert Held(s, k);
      }
      HistoryKept(s, s', t);
    } else {
      PassKeepsInv(s, s', t, Min(pc.desired, Available(s.tail, pc.my, pc.over)));
    }
  }

  /** Thread t settles tickets [lo, lo + n), all its own and all of one kind, as v. */
  ghost predicate Settling(s: State, s': State, t: ThreadId, lo: nat, n: nat, v: Ticket, was: Kind) {
    && lo + n <= |s.tickets|
    && (was == Waiting || was == Winning) && (v == Passed(t) || v == Claimed || v == Failed)
    && (forall k :: lo <= k < lo + n ==> OwnedBy(s.tickets[k], t) && KindOf(s.tickets[k]) == was)
    && s'.tickets == Mark(s.tickets, lo, n, v)
    && s'.tail == s.tail && s'.opt == s.opt
    && s'.over == s.over + (if v == Failed then n else 0)
    && s'.head == s.head + (if v == Claimed then n else 0)
    && |s'.claims| == s'.head && |s'.claims| >= |s.claims| && s'.claims[..|s.claims|] == s.claims
    && (forall u :: u != t ==> PcOf(s', u) == PcOf(s, u))
  }

  lemma NewlyPassingFit(s: State, s': State, t: ThreadId, lo: nat, n: nat, v: Ticket, was: Kind, k: nat)
    requires Settling(s, s', t, lo, n, v, was)
    requires v.Passed? ==> lo + n - Count(s.tickets[..lo], GivenBack) <= s.tail
    requires v.Claimed? ==> was == Winning
    requires k < |s.tickets| && Passes(s'.tickets[k])
    ensures Passes(s.tickets[k]) || k + 1 - Count(s'.tickets[..k], GivenBack) <= s'.tail
  {
    if !Passes(s.tickets[k]) {
      var rest := s'.tickets[lo..k];
      assert s'.tickets[..k] == s.tickets[..lo] + rest;
      CountAppend(s.tickets[..lo], rest, GivenBack);
    }
  }

  lemma SettlingSettles(s: State, s': State, t: ThreadId, lo: nat, n: nat, v: Ticket, was: Kind)
    requires Settling(s, s', t, lo, n, v, was)
    ensures Settles(s, s', t)
  {
  }

  lemma SettlingKeepsInv(s: State, s': State, t: ThreadId, lo: nat, n: nat, v: Ticket, was: Kind)
    requires Inv(s) && Settling(s, s', t, lo, n, v, was)
    requires PcOk(s', t)
    requires forall k :: 0 <= k < |s.tickets| ==> (OwnedBy(s'.tickets[k], t) ==> Held(s', k))
    requires v.Passed? ==> lo + n - Count(s.tickets[..lo], GivenBack) <= s.tail
    requires v.Claimed? ==> was == Winning
    ensures Inv(s')
  {
    hide PcOk, Settles;
    SettlingSettles(s, s', t, lo, n, v, was);
    CountMark(s.tickets, lo, n, v, was, GivenBack);
    CountMark(s.tickets, lo, n, v, was, Taken);
    forall k | 0 <= k < |s.tickets| && Passes(s'.tickets[k])
      ensures Passes(s.tickets[k]) || k + 1 - Count(s'.tickets[..k], GivenBack) <= s'.tail
    {
      NewlyPassingFit(s, s', t, lo, n, v, was, k);
    }
    hide Held, Mark;
    HistoryKept(s, s', t);
  }


  lemma StillHeld(s: State, s': State, t: ThreadId, lo: nat, n: nat, v: Ticket, was: Kind)
    requires Inv(s) && Settling(s, s', t, lo, n, v, was)
    requires var before, after := PcOf(s, t), PcOf(s', t);
      forall k :: Has(before, k) && (v.Passed? || !(lo <= k < lo + n)) ==> Has(after, k)
    ensures forall k :: 0 <= k < |s.tickets| ==> (OwnedBy(s'.tickets[k], t) ==> Held(s', k))
  {
    forall k | 0 <= k < |s.tickets| && OwnedBy(s'.tickets[k], t) ensures Held(s', k) {
      assert Held(s, k);
    }
  }

  lemma PassKeepsInv(s: State, s': State, t: ThreadId, actual: nat)
    requires Inv(s) && PcOf(s, t).Ticketed?
    requires var pc := PcOf(s, t);
      && actual <= pc.desired && pc.my - pc.over + actual <= s.tail
      && pc.my + actual <= |s.tickets|
      && s' == Goto(s.(tickets := Mark(s.tickets, pc.my, actual, Passed(t))), t,
                    if actual < pc.desired then Partial(actual, pc.desired, pc.my) else Passing(actual, pc.my))
    ensures Inv(s')
  {
    var pc := PcOf(s, t);
    ThreadOk(s, t);
    assert Settling(s, s', t, pc.my, actual, Passed(t), Waiting);
    StillHeld(s, s', t, pc.my, actual, Passed(t), Waiting);
    SettlingKeepsInv(s, s', t, pc.my, actual, Passed(t), Waiting);
  }

  lemma FailKeepsInv(s: State, t: ThreadId)
    requires Inv(s) && PcOf(s, t).Failing?
    ensures Inv(StepThread(s, t))
  {
    var s', pc := StepThread(s, t), PcOf(s, t);
    ThreadOk(s, t);
    assert Settling(s, s', t, pc.my, pc.desired, Failed, Waiting);
    StillHeld(s, s', t, pc.my, pc.desired, Failed, Waiting);
    SettlingKeepsInv(s, s', t, pc.my, pc.desired, Failed, Waiting);
  }

  lemma GivingBackSettles(s: State, t: ThreadId)
    requires PcOf(s, t).Partial? && PcOk(s, t) && |s.claims| == s.head
    ensures var s', pc := StepThread(s, t), PcOf(s, t);
      && Settling(s, s', t, pc.my + pc.actual, pc.desired - pc.actual, Failed, Waiting)
      && PcOf(s', t) == Passing(pc.actual, pc.my) && PcOk(s', t)
  {
  }

  lemma GiveBackKeepsInv(s: State, t: ThreadId)
    requires Inv(s) && PcOf(s, t).Partial?
    ensures Inv(StepThread(s, t))
  {
    var s', pc := StepThread(s, t), PcOf(s, t);
    ThreadOk(s, t);
    GivingBackSettles(s, t);
    hide Settling, StepThread, Mark;
    assert pc.actual <= pc.desired;
    StillHeld(s, s', t, pc.my + pc.actual, pc.desired - pc.actual, Failed, Waiting);
    hide PcOk, Inv;
    SettlingKeepsInv(s, s', t, pc.my + pc.actual, pc.desired - pc.actual, Failed, Waiting);
  }

  lemma ClaimKeepsInv(s: State, t: ThreadId)
    requires Inv(s) && PcOf(s, t).Passing?
    ensures Inv(StepThread(s, t))
  {
    var s', pc := StepThread(s, t), PcOf(s, t);
    ThreadOk(s, t);
    assert Settling(s, s', t, pc.my, pc.actual, Claimed, Winning);
    StillHeld(s, s', t, pc.my, pc.actual, Claimed, Winning);
    SettlingKeepsInv(s, s', t, pc.my, pc.actual, Claimed, Winning);
  }

  /** Loads, the enqueuer's publication, and the start and end of a call leave the history alone. */
  lemma QuietKeepsInv(s: State, s': State, t: ThreadId)
    requires Inv(s) && s'.tickets == s.tickets && s'.claims == s.claims
    requires s'.opt == s.opt && s'.over == s.over && s'.head == s.head && s'.tail >= s.tail
    requires forall u :: u != t ==> PcOf(s', u) == PcOf(s, u)
    requires PcOk(s', t) && Units(PcOf(s, t)) == 0 == Units(PcOf(s', t))
    ensures Inv(s')
  {
    forall u ensures PcOk(s', u) {
      assert PcOk(s, u);
    }
    forall k | 0 <= k < |s'.tickets| ensures Held(s', k) && Fits(s', k) {
      assert Held(s, k) && Fits(s, k);
    }
  }

  lemma NextKeepsInv(s: State, e: Event)
    requires Inv(s) && Windowed(s)
    ensures Inv(Next(s, e))
  {
    hide Available, Mark;
    var s' := Next(s, e);
    match e {
      case Enqueue(n) =>
        forall u ensures PcOk(s', u) {
          assert PcOk(s, u);
        }
        forall k | 0 <= k < |s'.tickets| ensures Held(s', k) && Fits(s', k) {
          assert Held(s, k) && Fits(s, k);
        }
      case Begin(t, _) => if s' != s { QuietKeepsInv(s, s', t); }
      case Release(t) => if s' != s { QuietKeepsInv(s, s', t); }
      case Advance(t) =>
        ThreadOk(s, t);
        match PcOf(s, t) {
          case Attempt(_, _) => DrawKeepsInv(s, t);
          case Ticketed(_, _, _) => SecondLookKeepsInv(s, t);
          case Partial(_, _, _) => GiveBackKeepsInv(s, t);
          case Failing(_, _) => FailKeepsInv(s, t);
          case Passing(_, _) => ClaimKeepsInv(s, t);
          case _ => QuietKeepsInv(s, s', t);
        }
    }
  }

  // ---- whole runs ----

  /** states is what the events make of an empty sub-queue, one atomic operation at a time. */
  ghost predicate Run(states: seq<State>, events: seq<Event>) {
    && |states| == |events| + 1 && states[0] == INIT
    && (forall i :: 0 <= i < |events| ==> Windowed(states[i]) && states[i + 1] == Next(states[i], events[i]))
  }

  lemma {:induction false} RunKeepsInv(states: seq<State>, events: seq<Event>, i: nat)
    requires Run(states, events) && i < |states|
    ensures Inv(states[i])
  {
    if i > 0 {
      RunKeepsInv(states, events, i - 1);
      NextKeepsInv(states[i - 1], events[i - 1]);
    }
  }

  /** Safety of optimistic dequeueing: in every interleaving, headIndex never passes tailIndex. */
  lemma HeadNeverPassesTail(states: seq<State>, events: seq<Event>, i: nat)
    requires Run(states, events) && i < |states|
    ensures states[i].head <= states[i].tail
    ensures states[i].head + Count(states[i].tickets, Winning) <= states[i].tail
  {
    RunKeepsInv(states, events, i);
    var s := states[i];
    PassingFit(s, |s.tickets|);
    assert s.tickets[..|s.tickets|] == s.tickets;
  }

  /** Nothing drawn from dequeueOptimisticCount is lost: it is in headIndex, in dequeueOvercommit, or in a thread's hands. */
  lemma TicketsConserved(states: seq<State>, events: seq<Event>, i: nat)
    requires Run(states, events) && i < |states|
    ensures var s := states[i];
      && s.opt == s.head + s.over + Count(s.tickets, Waiting) + Count(s.tickets, Winning)
      && forall k :: 0 <= k < |s.tickets| && (s.tickets[k].Pending? || s.tickets[k].Passed?) ==>
           Has(PcOf(s, s.tickets[k].owner), k)
  {
    RunKeepsInv(states, events, i);
    var s := states[i];
    CountTotal(s.tickets);
    forall k | 0 <= k < |s.tickets| && (s.tickets[k].Pending? || s.tickets[k].Passed?)
      ensures Has(PcOf(s, s.tickets[k].owner), k)
    {
      assert Held(s, k);
    }
  }

  lemma NextExtendsClaims(s: State, e: Event)
    ensures s.head <= Next(s, e).head && s.claims <= Next(s, e).claims
  {
    hide Available, Mark;
  }

  /** An index, once claimed, keeps its one claimant for the rest of the run, and the claimant took it at headIndex. */
  lemma {:induction false} ClaimsArePermanent(states: seq<State>, events: seq<Event>, i: nat, j: nat)
    requires Run(states, events) && i <= j < |states|
    ensures states[i].head <= states[j].head
    ensures states[i].claims <= states[j].claims
    decreases j
  {
    if i < j {
      ClaimsArePermanent(states, events, i, j - 1);
      NextExtendsClaims(states[j - 1], events[j - 1]);
    }
  }

  lemma ClaimantsDiffer(claims: seq<ThreadId>, i: nat, m: nat, t: ThreadId, j: nat, n: nat, u: ThreadId)
    requires i + m <= |claims| && j + n <= |claims| && m > 0 && n > 0 && t != u
    requires forall k :: i <= k < i + m ==> claims[k] == t
    requires forall k :: j <= k < j + n ==> claims[k] == u
    ensures i + m <= j || j + n <= i
  {
    var atFirst, atSecond := claims[i], claims[j];
  }

  /** No element is handed to two consumers: what each of two threads holds it has claimed, it is enqueued, and not both hold it. */
  lemma HeldIndicesAreExclusive(states: seq<State>, events: seq<Event>, i: nat, t: ThreadId, u: ThreadId)
    requires Run(states, events) && i < |states| && t != u
    requires PcOf(states[i], t).Holding? && PcOf(states[i], u).Holding?
    ensures var a, b := PcOf(states[i], t), PcOf(states[i], u);
      && a.first + a.count <= states[i].tail && b.first + b.count <= states[i].tail
      && a.first + a.count <= |states[i].claims| && b.first + b.count <= |states[i].claims|
      && (forall k :: a.first <= k < a.first + a.count ==> states[i].claims[k] == t)
      && (forall k :: b.first <= k < b.first + b.count ==> states[i].claims[k] == u)
      && (a.count > 0 && b.count > 0 ==> a.first + a.count <= b.first || b.first + b.count <= a.first)
  {
    RunKeepsInv(states, events, i);
    HeadNeverPassesTail(states, events, i);
    var s := states[i];
    ThreadOk(s, t);
    ThreadOk(s, u);
    var a, b := PcOf(s, t), PcOf(s, u);
    if a.count > 0 && b.count > 0 {
      ClaimantsDiffer(s.claims, a.first, a.count, t, b.first, b.count, u);
    }
  }

  // ---- an undisturbed dequeue ----

  ghost predicate Quiet(s: State) {
    forall t :: Units(PcOf(s, t)) == 0
  }

  function Alone(s: State, t: ThreadId, steps: nat): State {
    if steps == 0 then s else StepThread(Alone(s, t, steps - 1), t)
  }

  /** With no dequeue in flight the counters balance exactly, so the optimistic count minus the overcommit is headIndex. */
  lemma QuietBalance(s: State)
    requires Inv(s) && Quiet(s)
    ensures s.opt - s.over == s.head && s.head <= s.tail
  {
    forall k | 0 <= k < |s.tickets| ensures s.tickets[k].Claimed? || s.tickets[k].Failed? {
      assert Held(s, k);
    }
    AllSettled(s.tickets);
    CountTotal(s.tickets);
    PassingFit(s, |s.tickets|);
    assert s.tickets[..|s.tickets|] == s.tickets;
  }

  lemma {:induction false} AllSettled(ts: seq<Ticket>)
    requires forall k :: 0 <= k < |ts| ==> ts[k].Claimed? || ts[k].Failed?
    ensures Count(ts, Waiting) == 0 && Count(ts, Winning) == 0
  {
    if ts != [] {
      AllSettled(ts[..|ts| - 1]);
    }
  }

  /** A dequeue that runs with no other in flight takes the oldest elements, as many as it may and as there are. */
  lemma UndisturbedDequeue(s: State, t: ThreadId, max: nat)
    requires Inv(s) && Quiet(s) && PcOf(s, t) == Start(max) && max > 0
    requires s.tail - s.head < HALF_RANGE
    ensures s.head < s.tail ==>
              PcOf(Alone(s, t, 6), t) == Holding(s.head, Min(s.tail - s.head, max))
    ensures s.head == s.tail ==> PcOf(Alone(s, t, 3), t) == Idle && Alone(s, t, 3).opt == s.opt
  {
    QuietBalance(s);
    hide Available;
    var s1 := Alone(s, t, 1);
    assert s1 == StepThread(Alone(s, t, 0), t) && PcOf(s1, t) == LoadedTail(max, s.tail);
    assert s1.opt == s.opt && |s1.tickets| == s.opt && s1.tail == s.tail && s1.head == s.head && s1.over == s.over;
    var s2 := Alone(s, t, 2);
    assert s2 == StepThread(s1, t) && PcOf(s2, t) == LoadedOver(max, s.tail, s.over) && s2.opt == s.opt;
    AvailableIsDifference(s.tail, s.opt, s.over);
    var s3 := Alone(s, t, 3);
    assert s3 == StepThread(s2, t);
    if s.head < s.tail {
      var n := Min(s.tail - s.head, max);
      assert PcOf(s3, t) == Attempt(s.over, n);
      var s4 := Alone(s, t, 4);
      assert |s3.tickets| == s.opt && s3.tail == s.tail && s3.head == s.head;
      assert s4 == StepThread(s3, t) && PcOf(s4, t) == Ticketed(s.over, n, s.opt) && |s4.tickets| == s.opt + n;
      var s5 := Alone(s, t, 5);
      assert s5 == StepThread(s4, t) && PcOf(s5, t) == Passing(n, s.opt);
      var s6 := Alone(s, t, 6);
      assert s6 == StepThread(s5, t) && PcOf(s6, t) == Holding(s.head, n);
    }
  }

  // ---- a dequeue among others ----

  /** n is all that was asked for, or with the units drawn until b, less those handed back until a, covers what a's tail held. */
  predicate Enough(a: State, b: State, max: nat, n: nat) {
    n <= max && (n == max || a.tail + a.over <= b.opt + n)
  }

  /** What a thread in a dequeue of max knows from a and b, earlier states of it. */
  predicate Seen(a: State, b: State, max: nat, pc: Pc) {
    match pc
    case Start(m) => m == max
    case LoadedTail(m, tail) => m == max && tail == a.tail
    case LoadedOver(m, tail, over) => m == max && tail == a.tail && over >= a.over
    case Attempt(over, d) => over >= a.over && Enough(a, b, max, d)
    case Ticketed(over, d, my) => over >= a.over && my == b.opt && Enough(a, b, max, d)
    case Partial(n, _, _) => Enough(a, b, max, n)
    case Passing(n, _) => Enough(a, b, max, n)
    case Holding(_, n) => Enough(a, b, max, n)
    case Failing(_, _) => Enough(a, b, max, 0)
    case Idle => Enough(a, b, max, 0)
  }

  /** A step goes on knowing from a and b, or knows more from the present state. */
  lemma StepSees(a: State, b: State, s: State, t: ThreadId, max: nat)
    requires PcOk(s, t) && Windowed(s) && a.tail <= s.tail && a.over <= s.over && b.opt <= s.opt
    requires var pc := PcOf(s, t); Seen(a, b, max, pc) && !pc.Idle? && !pc.Holding?
    ensures var pc' := PcOf(StepThread(s, t), t);
      Seen(s, s, max, pc') || Seen(a, s, max, pc') || Seen(a, b, max, pc')
  {
    hide Mark, Available;
    var pc := PcOf(s, t);
    if pc.LoadedOver? {
      AvailableIsDifference(pc.tail, s.opt, pc.over);
    } else if pc.Ticketed? {
      AvailableIsDifference(s.tail, pc.my, pc.over);
    }
  }

  lemma NextGrows(s: State, e: Event)
    ensures var s' := Next(s, e); s'.tail >= s.tail && s'.over >= s.over && s'.opt >= s.opt
  {
    hide Mark, Available;
  }

  lemma {:induction false} RunGrows(states: seq<State>, events: seq<Event>, i: nat, j: nat)
    requires Run(states, events) && i <= j < |states|
    ensures states[j].tail >= states[i].tail && states[j].over >= states[i].over && states[j].opt >= states[i].opt
    decreases j
  {
    if i < j {
      RunGrows(states, events, i, j - 1);
      NextGrows(states[j - 1], events[j - 1]);
    }
  }

  lemma OthersLeave(s: State, e: Event, t: ThreadId)
    requires e != Advance(t) && !PcOf(s, t).Idle? && !PcOf(s, t).Holding?
    ensures PcOf(Next(s, e), t) == PcOf(s, t)
  {
    hide Mark, Available;
  }

  /** Thread t begins a dequeue of max in state k, and it is not over before state m. */
  ghost predicate Dequeuing(states: seq<State>, events: seq<Event>, k: nat, m: nat, t: ThreadId, max: nat) {
    && Run(states, events) && k < m < |states| && PcOf(states[k], t).Idle? && events[k] == Begin(t, max)
    && forall l :: k < l < m ==> !PcOf(states[l], t).Idle? && !PcOf(states[l], t).Holding?
  }

  lemma {:induction false} KnowsSomeMoments(
      states: seq<State>, events: seq<Event>, k: nat, m: nat, t: ThreadId, max: nat) returns (i: nat, j: nat)
    requires Dequeuing(states, events, k, m, t, max)
    ensures k < i <= j <= m && Seen(states[i], states[j], max, PcOf(states[m], t))
    decreases m
  {
    hide Seen, StepThread, Inv;
    if m == k + 1 {
      i, j := m, m;
      BegunSees(states[k], states[m], t, max);
    } else {
      i, j := KnowsSomeMoments(states, events, k, m - 1, t, max);
      var s := states[m - 1];
      if events[m - 1] == Advance(t) {
        RunKeepsInv(states, events, m - 1);
        ThreadOk(s, t);
        RunGrows(states, events, i, m - 1);
        RunGrows(states, events, j, m - 1);
        hide PcOk, Windowed;
        StepSees(states[i], states[j], s, t, max);
        var pc := PcOf(states[m], t);
        if Seen(s, s, max, pc) {
          i, j := m - 1, m - 1;
        } else if Seen(states[i], s, max, pc) {
          j := m - 1;
        }
      } else {
        OthersLeave(s, events[m - 1], t);
      }
    }
  }

  lemma BegunSees(s: State, now: State, t: ThreadId, max: nat)
    requires PcOf(s, t).Idle?
    ensures Seen(now, now, max, PcOf(Next(s, Begin(t, max)), t))
  {
  }

  /**
   * Among any others, a dequeue of max takes fewer only if there are two moments while it is on such that what it takes and
   * what had been drawn by the second, less what had been handed back by the first, is all that was enqueued at the first:
   * nothing that was there then, and that nobody had drawn, is left behind.
   */
  lemma TakesLessOnlyIfDrawn(states: seq<State>, events: seq<Event>, k: nat, m: nat, t: ThreadId, max: nat)
    requires Dequeuing(states, events, k, m, t, max) && (PcOf(states[m], t).Idle? || PcOf(states[m], t).Holding?)
    ensures var n := if PcOf(states[m], t).Holding? then PcOf(states[m], t).count else 0;
      exists i, j :: k < i <= j <= m && Enough(states[i], states[j], max, n)
  {
    var i, j := KnowsSomeMoments(states, events, k, m, t, max);
  }
}

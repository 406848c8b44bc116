/** The promise-chain lock and the release-function gate, both as a FIFO ticket lock, and the counter of
    active loads. */
module {:induction false} PromiseLocks {
  import opened Options

  // ---- the ticket lock ----

  /** Tickets below `serving` are done, `serving` itself is inside when `busy`. */
  datatype Ticket = Ticket(next: nat, serving: nat, busy: bool)

  datatype Move = Take | Admit(i: nat) | Finish(i: nat) | Nothing

  /** What a ticket lock allows. */
  predicate Allowed(t: Ticket, m: Move, u: Ticket) {
    match m
    case Take => u == t.(next := t.next + 1)
    case Admit(i) => i == t.serving < t.next && !t.busy && u == t.(busy := true)
    case Finish(i) => i == t.serving && t.busy && u == t.(serving := t.serving + 1, busy := false)
    case Nothing => u == t
  }

  // ---- the promise chain ----

  datatype Status = Waiting | Running | Settled(ok: bool)

  /** A call and the promise it was chained on: the tail at the time of the call. */
  datatype Call = Call(after: Option<nat>, status: Status)

  /** All calls in order; the tail is the settling of one of them. */
  datatype Chain = Chain(tail: Option<nat>, calls: seq<Call>)

  function WithLock(c: Chain): Chain {
    Chain(Some(|c.calls|), c.calls + [Call(c.tail, Waiting)])
  }

  /** The chained callback may run: its predecessor has settled, well or badly. */
  predicate CanStart(c: Chain, i: nat) {
    && i < |c.calls| && c.calls[i].status.Waiting?
    && (c.calls[i].after.Some? ==>
          c.calls[i].after.value < |c.calls| && c.calls[c.calls[i].after.value].status.Settled?)
  }

  function Started(c: Chain, i: nat): Chain
    requires CanStart(c, i)
  {
    c.(calls := c.calls[i := c.calls[i].(status := Running)])
  }

  predicate CanSettle(c: Chain, i: nat) {
    i < |c.calls| && c.calls[i].status.Running?
  }

  function Ended(c: Chain, i: nat, ok: bool): Chain
    requires CanSettle(c, i)
  {
    c.(calls := c.calls[i := c.calls[i].(status := Settled(ok))])
  }

  class PromiseLock {
    var tail: Option<nat>
    var calls: seq<Call>

    ghost function State(): Chain
      reads this
    {
      Chain(tail, calls)
    }

    constructor ()
      ensures State() == Chain(None, [])
    {
      tail, calls := None, [];
    }

    /** The synchronous part of a call: chain on the tail and become the tail. */
    method Enqueue() returns (i: nat)
      modifies this
      ensures State() == WithLock(old(State())) && i == |old(calls)|
    {
      i := |calls|;
      calls := calls + [Call(tail, Waiting)];
      tail := Some(i);
    }

    method Start(i: nat)
      requires CanStart(State(), i)
      modifies this
      ensures State() == Started(old(State()), i)
    {
      calls := calls[i := calls[i].(status := Running)];
    }

    method Settle(i: nat, ok: bool)
      requires CanSettle(State(), i)
      modifies this
      ensures State() == Ended(old(State()), i, ok)
    {
      calls := calls[i := calls[i].(status := Settled(ok))];
    }
  }

  datatype ChainEvent = EWithLock | EStart(call: nat) | ESettle(call: nat, ok: bool)

  predicate Enabled(c: Chain, e: ChainEvent) {
    match e
    case EWithLock => true
    case EStart(i) => CanStart(c, i)
    case ESettle(i, _) => CanSettle(c, i)
  }

  function Apply(c: Chain, e: ChainEvent): Chain
    requires Enabled(c, e)
  {
    match e
    case EWithLock => WithLock(c)
    case EStart(i) => Started(c, i)
    case ESettle(i, ok) => Ended(c, i, ok)
  }

  function MoveOf(e: ChainEvent): Move {
    match e
    case EWithLock => Take
    case EStart(i) => Admit(i)
    case ESettle(i, _) => Finish(i)
  }

  /** How many leading calls have settled. */
  function Served(calls: seq<Call>): (n: nat)
    ensures n <= |calls|
    ensures forall k | 0 <= k < n :: calls[k].status.Settled?
    ensures n < |calls| ==> !calls[n].status.Settled?
  {
    if calls == [] || !calls[0].status.Settled? then 0
    else
      var n := Served(calls[1..]);
      assert forall k | 1 <= k < n + 1 :: calls[k] == calls[1..][k - 1];
      n + 1
  }

  /** Each call is chained on the one before, and only the first unsettled one has started. */
  predicate ChainOk(c: Chain) {
    var n := Served(c.calls);
    && c.tail == (if c.calls == [] then None else Some(|c.calls| - 1))
    && (forall i | 0 <= i < |c.calls| :: c.calls[i].after == if i == 0 then None else Some(i - 1))
    && (forall i | n < i < |c.calls| :: c.calls[i].status.Waiting?)
  }

  /** The ticket lock a chain stands for. */
  function TicketOf(c: Chain): Ticket {
    var n := Served(c.calls);
    Ticket(|c.calls|, n, n < |c.calls| && c.calls[n].status.Running?)
  }

  lemma ServedIs(calls: seq<Call>, n: nat)
    requires n <= |calls| && (forall k | 0 <= k < n :: calls[k].status.Settled?)
    requires n < |calls| ==> !calls[n].status.Settled?
    ensures Served(calls) == n
  {
    if n > 0 {
      assert forall k | 0 <= k < n - 1 :: calls[1..][k] == calls[k + 1];
      ServedIs(calls[1..], n - 1);
    }
  }

  lemma EnqueueTakes(c: Chain)
    requires ChainOk(c)
    ensures ChainOk(WithLock(c)) && Allowed(TicketOf(c), Take, TicketOf(WithLock(c)))
  {
    ServedIs(WithLock(c).calls, Served(c.calls));
  }

  lemma StartAdmits(c: Chain, i: nat)
    requires ChainOk(c) && CanStart(c, i)
    ensures ChainOk(Started(c, i)) && Allowed(TicketOf(c), Admit(i), TicketOf(Started(c, i)))
  {
    assert i == Served(c.calls);
    ServedIs(Started(c, i).calls, i);
  }

  lemma SettleFinishes(c: Chain, i: nat, ok: bool)
    requires ChainOk(c) && CanSettle(c, i)
    ensures ChainOk(Ended(c, i, ok)) && Allowed(TicketOf(c), Finish(i), TicketOf(Ended(c, i, ok)))
  {
    assert i == Served(c.calls);
    ServedIs(Ended(c, i, ok).calls, i + 1);
  }

  /** Every step of a chain is a step of the ticket lock, and keeps the chain in shape. */
  lemma ChainRefinesTickets(c: Chain, e: ChainEvent)
    requires ChainOk(c) && Enabled(c, e)
    ensures ChainOk(Apply(c, e)) && Allowed(TicketOf(c), MoveOf(e), TicketOf(Apply(c, e)))
  {
    match e
    case EWithLock => EnqueueTakes(c);
    case EStart(i) => StartAdmits(c, i);
    case ESettle(i, ok) => SettleFinishes(c, i, ok);
  }

  /** At most one call runs, and it is the oldest unsettled one: callers enter in call order. */
  lemma OneAtATime(c: Chain, i: nat, j: nat)
    requires ChainOk(c) && i < |c.calls| && j < |c.calls| && c.calls[i].status.Running?
    ensures c.calls[j].status.Running? ==> j == i
    ensures j < i ==> c.calls[j].status.Settled?
    ensures j > i ==> c.calls[j].status.Waiting? && !CanStart(c, j)
  {
    var n := Served(c.calls);
    assert i == n;
  }

  /** Nothing gets stuck, whether calls settled well or badly: while a call is unsettled, the
      oldest unsettled one can start or settle. */
  lemma ThrowsNeverBlock(c: Chain)
    requires ChainOk(c) && Served(c.calls) < |c.calls|
    ensures var n := Served(c.calls); CanStart(c, n) || CanSettle(c, n)
  {
    var n := Served(c.calls);
    if n > 0 {
      assert c.calls[n - 1].status.Settled?;
    }
  }

  predicate EnabledRun(c: Chain, events: seq<ChainEvent>)
    decreases events
  {
    events == [] || (Enabled(c, events[0]) && EnabledRun(Apply(c, events[0]), events[1..]))
  }

  function Run(c: Chain, events: seq<ChainEvent>): Chain
    requires EnabledRun(c, events)
    decreases events
  {
    if events == [] then c else Run(Apply(c, events[0]), events[1..])
  }

  lemma RunIsOk(c: Chain, events: seq<ChainEvent>)
    requires ChainOk(c) && EnabledRun(c, events)
    ensures ChainOk(Run(c, events))
    decreases events
  {
    if events != [] {
      ChainRefinesTickets(c, events[0]);
      RunIsOk(Apply(c, events[0]), events[1..]);
    }
  }

  /** In every run of calls, starts and settlements at most one critical section is running. */
  lemma MutualExclusion(events: seq<ChainEvent>, i: nat, j: nat)
    requires EnabledRun(Chain(None, []), events)
    ensures var c := Run(Chain(None, []), events);
            i < |c.calls| && j < |c.calls| && c.calls[i].status.Running? && c.calls[j].status.Running? ==> i == j
  {
    RunIsOk(Chain(None, []), events);
    var c := Run(Chain(None, []), events);
    if i < |c.calls| && j < |c.calls| && c.calls[i].status.Running? {
      OneAtATime(c, i, j);
    }
  }

  // ---- the gate with release functions ----

  /** One acquire: still queued, holding, and whether its release function was called. */
  datatype Hold = Hold(granted: bool, released: bool)

  /** The gate promise after the first `n` acquires is resolved: all of them were released. */
  predicate GateOpen(holds: seq<Hold>, n: nat)
    requires n <= |holds|
  {
    n == 0 || (holds[n - 1].released && GateOpen(holds, n - 1))
  }

  predicate CanGrant(holds: seq<Hold>, i: nat) {
    i < |holds| && !holds[i].granted && GateOpen(holds, i)
  }

  datatype GateEvent = EAcquire | EGrant(hold: nat) | ERelease(hold: nat)

  /** Only a granted acquire has its release function, but may call it any number of times. */
  predicate GateEnabled(holds: seq<Hold>, e: GateEvent) {
    match e
    case EAcquire => true
    case EGrant(i) => CanGrant(holds, i)
    case ERelease(i) => i < |holds| && holds[i].granted
  }

  function GateApply(holds: seq<Hold>, e: GateEvent): seq<Hold>
    requires GateEnabled(holds, e)
  {
    match e
    case EAcquire => holds + [Hold(false, false)]
    case EGrant(i) => holds[i := Hold(true, holds[i].released)]
    case ERelease(i) => holds[i := Hold(holds[i].granted, true)]
  }

  class SimBridgeGate {
    var holds: seq<Hold>

    constructor ()
      ensures holds == []
    {
      holds := [];
    }

    method Acquire() returns (i: nat)
      modifies this
      ensures holds == GateApply(old(holds), EAcquire) && i == |old(holds)|
    {
      i := |holds|;
      holds := holds + [Hold(false, false)];
    }

    method Grant(i: nat)
      requires CanGrant(holds, i)
      modifies this
      ensures holds == GateApply(old(holds), EGrant(i))
    {
      holds := holds[i := Hold(true, holds[i].released)];
    }

    method Release(i: nat)
      requires i < |holds| && holds[i].granted
      modifies this
      ensures holds == GateApply(old(holds), ERelease(i))
    {
      holds := holds[i := Hold(holds[i].granted, true)];
    }
  }

  function Freed(holds: seq<Hold>): (n: nat)
    ensures n <= |holds|
    ensures forall k | 0 <= k < n :: holds[k].released
    ensures n < |holds| ==> !holds[n].released
  {
    if holds == [] || !holds[0].released then 0
    else
      var n := Freed(holds[1..]);
      assert forall k | 1 <= k < n + 1 :: holds[k] == holds[1..][k - 1];
      n + 1
  }

  predicate GateOk(holds: seq<Hold>) {
    var n := Freed(holds);
    && (forall i | 0 <= i < n :: holds[i].granted)
    && (forall i | n < i < |holds| :: !holds[i].granted && !holds[i].released)
  }

  function GateTicket(holds: seq<Hold>): Ticket {
    var n := Freed(holds);
    Ticket(|holds|, n, n < |holds| && holds[n].granted)
  }

  lemma FreedIs(holds: seq<Hold>, n: nat)
    requires n <= |holds| && (forall k | 0 <= k < n :: holds[k].released)
    requires n < |holds| ==> !holds[n].released
    ensures Freed(holds) == n
  {
    if n > 0 {
      assert forall k | 0 <= k < n - 1 :: holds[1..][k] == holds[k + 1];
      FreedIs(holds[1..], n - 1);
    }
  }

  lemma OpenIff(holds: seq<Hold>, i: nat)
    requires i <= |holds|
    ensures GateOpen(holds, i) <==> forall k | 0 <= k < i :: holds[k].released
  {
    if i > 0 {
      OpenIff(holds, i - 1);
    }
  }

  /** A release after the first one changes nothing. */
  lemma RepeatedReleaseIsHarmless(holds: seq<Hold>, i: nat)
    requires i < |holds| && holds[i].granted
    ensures GateApply(GateApply(holds, ERelease(i)), ERelease(i)) == GateApply(holds, ERelease(i))
    ensures holds[i].released ==> GateApply(holds, ERelease(i)) == holds
  {
    assert GateApply(holds, ERelease(i))[i] == Hold(true, true);
  }

  function GateMove(holds: seq<Hold>, e: GateEvent): Move {
    match e
    case EAcquire => Take
    case EGrant(i) => Admit(i)
    case ERelease(i) => if i < |holds| && holds[i].released then Nothing else Finish(i)
  }

  /** The gate is the same ticket lock; a repeated release is no step of it. */
  lemma GateRefinesTickets(holds: seq<Hold>, e: GateEvent)
    requires GateOk(holds) && GateEnabled(holds, e)
    ensures GateOk(GateApply(holds, e)) && Allowed(GateTicket(holds), GateMove(holds, e), GateTicket(GateApply(holds, e)))
  {
    var n := Freed(holds);
    var after := GateApply(holds, e);
    match e
    case EAcquire =>
      FreedIs(after, n);
    case EGrant(i) =>
      OpenIff(holds, i);
      assert i <= n;
      assert i == n;
      FreedIs(after, n);
    case ERelease(i) =>
      if holds[i].released {
        RepeatedReleaseIsHarmless(holds, i);
      } else {
        assert i == n;
        FreedIs(after, n + 1);
      }
  }

  function GateRun(holds: seq<Hold>, events: seq<GateEvent>): seq<Hold>
    requires GateEnabledRun(holds, events)
    decreases events
  {
    if events == [] then holds else GateRun(GateApply(holds, events[0]), events[1..])
  }

  predicate GateEnabledRun(holds: seq<Hold>, events: seq<GateEvent>)
    decreases events
  {
    events == [] || (GateEnabled(holds, events[0]) && GateEnabledRun(GateApply(holds, events[0]), events[1..]))
  }

  lemma GateRunIsOk(holds: seq<Hold>, events: seq<GateEvent>)
    requires GateOk(holds) && GateEnabledRun(holds, events)
    ensures GateOk(GateRun(holds, events))
    decreases events
  {
    if events != [] {
      GateRefinesTickets(holds, events[0]);
      GateRunIsOk(GateApply(holds, events[0]), events[1..]);
    }
  }

  /** Granted and not released yet. */
  predicate Inside(holds: seq<Hold>, i: nat) {
    i < |holds| && holds[i].granted && !holds[i].released
  }

  /** In every run at most one acquire is inside, and a later acquire is granted only after all the earlier
      ones were granted and released. */
  lemma GateExcludes(events: seq<GateEvent>, i: nat, j: nat)
    requires GateEnabledRun([], events)
    ensures var holds := GateRun([], events);
            && (Inside(holds, i) && Inside(holds, j) ==> i == j)
            && (i < j < |holds| && holds[j].granted ==> holds[i].granted && holds[i].released)
  {
    GateRunIsOk([], events);
  }

  /** The oldest unreleased acquire is either inside or can be granted. */
  lemma GateNeverSticks(holds: seq<Hold>)
    requires GateOk(holds) && Freed(holds) < |holds|
    ensures var n := Freed(holds); holds[n].granted || CanGrant(holds, n)
  {
    OpenIff(holds, Freed(holds));
  }

  // ---- the counter of active loads ----

  class OfpLoadState {
    var activeCount: nat

    constructor ()
      ensures activeCount == 0
    {
      activeCount := 0;
    }

    method Begin()
      modifies this
      ensures activeCount == CountAfter(old(activeCount), true)
    {
      activeCount := activeCount + 1;
    }

    method End()
      modifies this
      ensures activeCount == CountAfter(old(activeCount), false)
    {
      activeCount := if activeCount > 0 then activeCount - 1 else 0;
    }
  }

  function CountAfter(count: nat, begin: bool): nat {
    if begin then count + 1 else if count > 0 then count - 1 else 0
  }

  /** The counter after a history of begins and ends. */
  function Count(h: seq<bool>): nat {
    if h == [] then 0 else CountAfter(Count(h[..|h| - 1]), h[|h| - 1])
  }

  /** Begins minus ends. */
  function Net(h: seq<bool>): int {
    if h == [] then 0 else Net(h[..|h| - 1]) + (if h[|h| - 1] then 1 else -1)
  }

  lemma NetStep(h: seq<bool>, k: nat)
    requires k < |h|
    ensures Net(h[k..]) == Net(h[..|h| - 1][k..]) + (if h[|h| - 1] then 1 else -1)
  {
    assert h[k..][..|h| - 1 - k] == h[..|h| - 1][k..];
  }

  lemma SurplusIsBounded(h: seq<bool>, k: nat)
    requires k <= |h|
    ensures Net(h[k..]) <= Count(h)
    decreases |h|
  {
    if k < |h| {
      NetStep(h, k);
      SurplusIsBounded(h[..|h| - 1], k);
    }
  }

  lemma SurplusIsReached(h: seq<bool>) returns (k: nat)
    ensures k <= |h| && Net(h[k..]) == Count(h)
    decreases |h|
  {
    k := |h|;
    if Count(h) > 0 {
      k := SurplusIsReached(h[..|h| - 1]);
      if k < |h| {
        NetStep(h, k);
      }
    }
  }

  /** The counter is the largest surplus of begins over ends in any stretch up to now: surplus ends
      never cancel later begins. */
  lemma CountIsLargestSurplus(h: seq<bool>)
    ensures forall k | 0 <= k <= |h| :: Net(h[k..]) <= Count(h)
    ensures exists k | 0 <= k <= |h| :: Net(h[k..]) == Count(h)
  {
    forall k | 0 <= k <= |h| ensures Net(h[k..]) <= Count(h) {
      SurplusIsBounded(h, k);
    }
    var k := SurplusIsReached(h);
  }
}

/** The world and company locks together: clients that take world before company and never enter a
    lock twice always get through. */
module {:induction false} TwoLocks {
  datatype Lock = World | Company

  datatype Act = Acquire(l: Lock) | Leave(l: Lock)

  /** What a client still has to do, and the lock it is queued for, if any. */
  datatype Client = Ready(acts: seq<Act>) | Queued(l: Lock, acts: seq<Act>)

  /** Each lock serves its queue in order: the head holds it, or is about to. */
  datatype System = System(clients: seq<Client>, world: seq<nat>, company: seq<nat>)

  function Queue(s: System, l: Lock): seq<nat> {
    if l.World? then s.world else s.company
  }

  function WithQueue(s: System, l: Lock, q: seq<nat>): System {
    if l.World? then s.(world := q) else s.(company := q)
  }

  function Start(scripts: seq<seq<Act>>): System {
    System(seq(|scripts|, i requires 0 <= i < |scripts| => Ready(scripts[i])), [], [])
  }

  predicate IsHead(q: seq<nat>, i: nat) {
    q != [] && q[0] == i
  }

  /** The latest call of client `i` is the first in the queue. */
  predicate AtFront(q: seq<nat>, i: nat) {
    IsHead(q, i) && i !in q[1..]
  }

  predicate CanStep(s: System, i: nat) {
    i < |s.clients| &&
    match s.clients[i]
    case Queued(l, _) => AtFront(Queue(s, l), i)
    case Ready(acts) => acts != [] && (acts[0].Leave? ==> IsHead(Queue(s, acts[0].l), i))
  }

  /** Call a lock, enter it at the head of its queue, or leave it. */
  function Step(s: System, i: nat): System
    requires CanStep(s, i)
  {
    match s.clients[i]
    case Queued(l, acts) => s.(clients := s.clients[i := Ready(acts)])
    case Ready(acts) =>
      var l := acts[0].l;
      if acts[0].Acquire? then
        WithQueue(s.(clients := s.clients[i := Queued(l, acts[1..])]), l, Queue(s, l) + [i])
      else
        WithQueue(s.(clients := s.clients[i := Ready(acts[1..])]), l, Queue(s, l)[1..])
  }

  /** The ordering rule, for a client that holds `held`: world is taken with nothing held, company
      not twice, and every lock taken is left. */
  predicate Ordered(acts: seq<Act>, held: set<Lock>)
    decreases acts
  {
    if acts == [] then held == {}
    else
      match acts[0]
      case Acquire(World) => held == {} && Ordered(acts[1..], {World})
      case Acquire(Company) => Company !in held && Ordered(acts[1..], held + {Company})
      case Leave(l) => l in held && Ordered(acts[1..], held - {l})
  }

  predicate AllOrdered(scripts: seq<seq<Act>>) {
    forall i | 0 <= i < |scripts| :: Ordered(scripts[i], {})
  }

  // ---- the invariant ----

  predicate WaitsFor(c: Client, l: Lock) {
    c.Queued? && c.l == l
  }

  /** What client `i` holds: it heads the queue and is past waiting. */
  predicate Holds(s: System, i: nat, l: Lock)
    requires i < |s.clients|
  {
    IsHead(Queue(s, l), i) && !WaitsFor(s.clients[i], l)
  }

  function Held(s: System, i: nat): set<Lock>
    requires i < |s.clients|
  {
    set l: Lock | l in {World, Company} && Holds(s, i, l)
  }

  predicate ClientOk(s: System, i: nat)
    requires i < |s.clients|
  {
    match s.clients[i]
    case Ready(acts) => Ordered(acts, Held(s, i))
    case Queued(l, acts) => Ordered([Acquire(l)] + acts, Held(s, i))
  }

  predicate Distinct(q: seq<nat>) {
    forall p, r | 0 <= p < r < |q| :: q[p] != q[r]
  }

  /** A queue lists known clients once each; all but its head are waiting, and whoever waits is in it. */
  predicate QueueFits(clients: seq<Client>, q: seq<nat>, l: Lock) {
    && (forall p | 0 <= p < |q| :: q[p] < |clients|)
    && Distinct(q)
    && (forall p | 0 < p < |q| :: WaitsFor(clients[q[p]], l))
    && (forall i | 0 <= i < |clients| :: WaitsFor(clients[i], l) ==> i in q)
  }

  predicate QueueOk(s: System, l: Lock) {
    QueueFits(s.clients, Queue(s, l), l)
  }

  predicate Inv(s: System) {
    QueueOk(s, World) && QueueOk(s, Company) && forall i | 0 <= i < |s.clients| :: ClientOk(s, i)
  }

  lemma StartIsInv(scripts: seq<seq<Act>>)
    requires AllOrdered(scripts)
    ensures Inv(Start(scripts))
  {
    var s := Start(scripts);
    forall i | 0 <= i < |s.clients| ensures ClientOk(s, i) {
      assert Held(s, i) == {};
    }
  }

  // ---- steps keep it ----

  function Other(l: Lock): Lock {
    if l.World? then Company else World
  }

  lemma QueuesAfter(s: System, i: nat, c: Client, l: Lock, q: seq<nat>)
    requires i < |s.clients|
    ensures var t := WithQueue(s.(clients := s.clients[i := c]), l, q);
            && Queue(t, l) == q && Queue(t, Other(l)) == Queue(s, Other(l)) && t.clients == s.clients[i := c]
  {
  }

  /** A client that is not the one stepping keeps what it holds. */
  lemma OthersKeep(s: System, t: System, i: nat, j: nat)
    requires Inv(s) && i < |s.clients| && j < |s.clients| && i != j
    requires |t.clients| == |s.clients| && t.clients[j] == s.clients[j]
    requires forall l :: IsHead(Queue(t, l), j) && !WaitsFor(s.clients[j], l) <==> Holds(s, j, l)
    ensures ClientOk(t, j)
  {
    assert Held(t, j) == Held(s, j);
    assert ClientOk(s, j);
  }

  /** Calling a lock. */
  lemma RequestKeeps(s: System, i: nat)
    requires Inv(s) && CanStep(s, i) && s.clients[i].Ready? && s.clients[i].acts[0].Acquire?
    ensures Inv(Step(s, i))
  {
    var acts := s.clients[i].acts;
    var l := acts[0].l;
    var t := Step(s, i);
    QueuesAfter(s, i, Queued(l, acts[1..]), l, Queue(s, l) + [i]);
    assert ClientOk(s, i) && l !in Held(s, i);
    NotQueued(s, i, l);
    assert QueueOk(t, l) by {
      RequestQueue(s, t, i, l);
    }
    assert QueueOk(t, Other(l)) by {
      SameQueue(s, t, i, Other(l));
    }
    assert acts == [Acquire(l)] + acts[1..];
    assert Held(t, i) == Held(s, i);
    forall j | 0 <= j < |t.clients| ensures ClientOk(t, j) {
      if j != i {
        OthersKeep(s, t, i, j);
      }
    }
  }

  /** A ready client that does not hold a lock is not in its queue. */
  lemma NotQueued(s: System, i: nat, l: Lock)
    requires Inv(s) && i < |s.clients| && s.clients[i].Ready? && !Holds(s, i, l)
    ensures i !in Queue(s, l)
  {
    var q := Queue(s, l);
    assert QueueOk(s, l);
    forall p | 0 <= p < |q| ensures q[p] != i {
      assert p > 0 ==> WaitsFor(s.clients[q[p]], l);
    }
  }

  lemma DistinctAppend(q: seq<nat>, i: nat)
    requires Distinct(q) && i !in q
    ensures Distinct(q + [i])
  {
    var r := q + [i];
    forall p, k | 0 <= p < k < |r| ensures r[p] != r[k] {
      assert r[p] == q[p] && q[p] in q;
    }
  }

  lemma RequestQueue(s: System, t: System, i: nat, l: Lock)
    requires Inv(s) && i < |s.clients| && s.clients[i].Ready? && i !in Queue(s, l)
    requires |t.clients| == |s.clients| && WaitsFor(t.clients[i], l) && Queue(t, l) == Queue(s, l) + [i]
    requires forall j | 0 <= j < |s.clients| && j != i :: t.clients[j] == s.clients[j]
    ensures QueueOk(t, l)
  {
    var q, r := Queue(s, l), Queue(t, l);
    assert QueueOk(s, l);
    DistinctAppend(q, i);
    forall p | 0 <= p < |r| ensures r[p] < |t.clients| && (p > 0 ==> WaitsFor(t.clients[r[p]], l)) {
      if p < |q| {
        assert r[p] == q[p] && q[p] in q;
      }
    }
    forall j | 0 <= j < |t.clients| && WaitsFor(t.clients[j], l) ensures j in r {
      if j == i {
        assert r[|q|] == i;
      } else {
        assert j in q;
      }
    }
  }

  /** A queue the step does not touch. */
  lemma SameQueue(s: System, t: System, i: nat, l: Lock)
    requires Inv(s) && i < |s.clients| && |t.clients| == |s.clients| && Queue(t, l) == Queue(s, l)
    requires forall j | 0 <= j < |s.clients| && j != i :: t.clients[j] == s.clients[j]
    requires !WaitsFor(s.clients[i], l) && !WaitsFor(t.clients[i], l)
    ensures QueueOk(t, l)
  {
    assert QueueOk(s, l);
    var q := Queue(s, l);
    forall p | 0 < p < |q| ensures WaitsFor(t.clients[q[p]], l) {
      assert WaitsFor(s.clients[q[p]], l);
    }
    forall j | 0 <= j < |t.clients| && WaitsFor(t.clients[j], l) ensures j in q {
      assert WaitsFor(s.clients[j], l);
    }
  }

  /** Entering a lock at the head of its queue. */
  lemma GrantKeeps(s: System, i: nat)
    requires Inv(s) && CanStep(s, i) && s.clients[i].Queued?
    ensures Inv(Step(s, i))
  {
    var l, acts := s.clients[i].l, s.clients[i].acts;
    var t := Step(s, i);
    assert ClientOk(s, i);
    assert ([Acquire(l)] + acts)[1..] == acts;
    assert Held(t, i) == Held(s, i) + {l};
    assert l.World? ==> Held(t, i) == {World};
    assert QueueOk(t, l) by {
      GrantQueue(s, t, i, l);
    }
    assert QueueOk(t, Other(l)) by {
      SameQueue(s, t, i, Other(l));
    }
    forall j | 0 <= j < |t.clients| ensures ClientOk(t, j) {
      if j != i {
        OthersKeep(s, t, i, j);
      }
    }
  }

  lemma GrantQueue(s: System, t: System, i: nat, l: Lock)
    requires Inv(s) && i < |s.clients| && IsHead(Queue(s, l), i) && Queue(t, l) == Queue(s, l)
    requires |t.clients| == |s.clients| && t.clients[i].Ready?
    requires forall j | 0 <= j < |s.clients| && j != i :: t.clients[j] == s.clients[j]
    ensures QueueOk(t, l)
  {
    assert QueueOk(s, l);
    var q := Queue(s, l);
    forall p | 0 < p < |q| ensures WaitsFor(t.clients[q[p]], l) {
      assert q[0] != q[p] && WaitsFor(s.clients[q[p]], l);
    }
    forall j | 0 <= j < |t.clients| && WaitsFor(t.clients[j], l) ensures j in q {
      assert WaitsFor(s.clients[j], l);
    }
  }

  /** Leaving a lock. */
  lemma LeaveKeeps(s: System, i: nat)
    requires Inv(s) && CanStep(s, i) && s.clients[i].Ready? && s.clients[i].acts[0].Leave?
    ensures Inv(Step(s, i))
  {
    var acts := s.clients[i].acts;
    var l := acts[0].l;
    var t := Step(s, i);
    QueuesAfter(s, i, Ready(acts[1..]), l, Queue(s, l)[1..]);
    assert QueueOk(s, l);
    LeftKeeps(s, t, i, l);
  }

  lemma LeftKeeps(s: System, t: System, i: nat, l: Lock)
    requires Inv(s) && i < |s.clients| && s.clients[i].Ready? && s.clients[i].acts != []
    requires s.clients[i].acts[0] == Leave(l) && IsHead(Queue(s, l), i)
    requires t.clients == s.clients[i := Ready(s.clients[i].acts[1..])]
    requires Queue(t, l) == Queue(s, l)[1..] && Queue(t, Other(l)) == Queue(s, Other(l))
    ensures Inv(t)
  {
    assert QueueOk(t, l) by {
      assert QueueOk(s, l);
      TailFits(s.clients, t.clients, Queue(s, l), l);
    }
    assert QueueOk(t, Other(l)) by {
      SameQueue(s, t, i, Other(l));
    }
    forall j | 0 <= j < |t.clients| ensures ClientOk(t, j) {
      if j == i {
        LeaverOk(s, t, i, l);
      } else {
        NextWaits(s, l);
        OthersKeep(s, t, i, j);
      }
    }
  }

  lemma LeaverHolds(s: System, t: System, i: nat, l: Lock, m: Lock)
    requires QueueOk(s, l) && i < |s.clients| && s.clients[i].Ready? && IsHead(Queue(s, l), i)
    requires |t.clients| == |s.clients| && t.clients[i].Ready?
    requires Queue(t, l) == Queue(s, l)[1..] && Queue(t, Other(l)) == Queue(s, Other(l))
    ensures Holds(t, i, m) <==> Holds(s, i, m) && m != l
  {
    GoneFrom(s, i, l);
    assert m == l || m == Other(l);
  }

  lemma LeaverOk(s: System, t: System, i: nat, l: Lock)
    requires Inv(s) && i < |s.clients| && s.clients[i].Ready? && s.clients[i].acts != []
    requires s.clients[i].acts[0] == Leave(l) && IsHead(Queue(s, l), i)
    requires |t.clients| == |s.clients| && t.clients[i] == Ready(s.clients[i].acts[1..])
    requires Queue(t, l) == Queue(s, l)[1..] && Queue(t, Other(l)) == Queue(s, Other(l))
    ensures ClientOk(t, i)
  {
    assert QueueOk(s, l);
    LeaverHeld(s, t, i, l);
    assert ClientOk(s, i);
  }

  lemma LeaverHeld(s: System, t: System, i: nat, l: Lock)
    requires QueueOk(s, l) && i < |s.clients| && s.clients[i].Ready? && IsHead(Queue(s, l), i)
    requires |t.clients| == |s.clients| && t.clients[i].Ready?
    requires Queue(t, l) == Queue(s, l)[1..] && Queue(t, Other(l)) == Queue(s, Other(l))
    ensures Held(t, i) == Held(s, i) - {l}
  {
    forall m: Lock ensures m in Held(t, i) <==> m in Held(s, i) && m != l {
      LeaverHolds(s, t, i, l, m);
      assert m in {World, Company};
    }
  }

  lemma GoneFrom(s: System, i: nat, l: Lock)
    requires QueueOk(s, l) && IsHead(Queue(s, l), i)
    ensures i !in Queue(s, l)[1..]
  {
    var q := Queue(s, l);
    assert forall p | 1 <= p < |q| :: q[1..][p - 1] == q[p] && q[p] != q[0];
  }

  /** Whoever comes after the head is waiting. */
  lemma NextWaits(s: System, l: Lock)
    requires Inv(s)
    ensures |Queue(s, l)| > 1 ==> Queue(s, l)[1] < |s.clients| && WaitsFor(s.clients[Queue(s, l)[1]], l)
  {
    assert QueueOk(s, l);
  }

  lemma DistinctTail(q: seq<nat>)
    requires Distinct(q) && q != []
    ensures Distinct(q[1..]) && q[0] !in q[1..]
    ensures forall j :: j in q <==> j == q[0] || j in q[1..]
  {
    var r := q[1..];
    assert q == [q[0]] + r;
    forall p, k | 0 <= p < k < |r| ensures r[p] != r[k] {
      assert r[p] == q[p + 1] && r[k] == q[k + 1];
    }
    forall p | 0 <= p < |r| ensures r[p] != q[0] {
      assert r[p] == q[p + 1];
    }
  }

  /** The rest of a queue, once its head has left. */
  lemma TailFits(before: seq<Client>, after: seq<Client>, q: seq<nat>, l: Lock)
    requires QueueFits(before, q, l) && q != [] && |after| == |before| && after[q[0]].Ready?
    requires forall j | 0 <= j < |before| && j != q[0] :: after[j] == before[j]
    ensures QueueFits(after, q[1..], l)
  {
    var r := q[1..];
    DistinctTail(q);
    forall p | 0 <= p < |r| ensures r[p] < |after| && WaitsFor(after[r[p]], l) {
      assert r[p] == q[p + 1] && WaitsFor(before[q[p + 1]], l) && r[p] in r;
    }
    forall j | 0 <= j < |after| && WaitsFor(after[j], l) ensures j in r {
      assert j in q;
    }
  }


  lemma StepKeeps(s: System, i: nat)
    requires Inv(s) && CanStep(s, i)
    ensures Inv(Step(s, i))
  {
    if s.clients[i].Queued? {
      GrantKeeps(s, i);
    } else if s.clients[i].acts[0].Acquire? {
      RequestKeeps(s, i);
    } else {
      LeaveKeeps(s, i);
    }
  }

  // ---- no deadlock ----

  predicate Done(c: Client) {
    c == Ready([])
  }

  /** A client that holds company can always go on; one that heads the world queue can when the
      company queue is empty. */
  lemma HeadCanStep(s: System, i: nat, l: Lock)
    requires Inv(s) && IsHead(Queue(s, l), i) && (l.World? ==> Queue(s, Company) == [])
    ensures CanStep(s, i)
  {
    assert QueueOk(s, l) && QueueOk(s, World) && QueueOk(s, Company);
    assert i < |s.clients| && ClientOk(s, i);
    assert !WaitsFor(s.clients[i], l) ==> l in Held(s, i);
    match s.clients[i]
    case Queued(m, acts) =>
      assert ([Acquire(m)] + acts)[0] == Acquire(m);
      GoneFrom(s, i, m);
    case Ready(acts) =>
  }

  /** While some client is not done, some client can take a step. */
  lemma SomeoneCanStep(s: System, i: nat) returns (j: nat)
    requires Inv(s) && i < |s.clients| && !Done(s.clients[i])
    ensures CanStep(s, j)
  {
    if s.company != [] {
      j := s.company[0];
      HeadCanStep(s, j, Company);
    } else if s.world != [] {
      j := s.world[0];
      HeadCanStep(s, j, World);
    } else {
      j := i;
      assert QueueOk(s, World) && QueueOk(s, Company) && ClientOk(s, i);
      assert Held(s, i) == {};
    }
  }

  // ---- whole schedules ----

  predicate Schedule(s: System, steps: seq<nat>)
    decreases steps
  {
    steps == [] || (CanStep(s, steps[0]) && Schedule(Step(s, steps[0]), steps[1..]))
  }

  function Run(s: System, steps: seq<nat>): (t: System)
    requires Schedule(s, steps)
    ensures |t.clients| == |s.clients|
    decreases steps
  {
    if steps == [] then s else Run(Step(s, steps[0]), steps[1..])
  }

  lemma RunIsInv(s: System, steps: seq<nat>)
    requires Inv(s) && Schedule(s, steps)
    ensures Inv(Run(s, steps))
    decreases steps
  {
    if steps != [] {
      StepKeeps(s, steps[0]);
      RunIsInv(Step(s, steps[0]), steps[1..]);
    }
  }

  /** Whatever the schedule so far, clients that obey the ordering rule are never all stuck. */
  lemma NoDeadlock(scripts: seq<seq<Act>>, steps: seq<nat>, i: nat) returns (j: nat)
    requires AllOrdered(scripts) && Schedule(Start(scripts), steps)
    requires i < |scripts| && !Done(Run(Start(scripts), steps).clients[i])
    ensures CanStep(Run(Start(scripts), steps), j)
  {
    StartIsInv(scripts);
    RunIsInv(Start(scripts), steps);
    j := SomeoneCanStep(Run(Start(scripts), steps), i);
  }

  /** What is left to do: two for each act, one for a place in a queue. */
  function Work(clients: seq<Client>): nat {
    if clients == [] then 0
    else Work(clients[..|clients| - 1]) + Rest(clients[|clients| - 1])
  }

  function Rest(c: Client): nat {
    match c
    case Ready(acts) => 2 * |acts|
    case Queued(_, acts) => 2 * |acts| + 1
  }

  lemma WorkUpdate(clients: seq<Client>, i: nat, c: Client)
    requires i < |clients|
    ensures Work(clients[i := c]) == Work(clients) - Rest(clients[i]) + Rest(c)
    decreases |clients|
  {
    var front := clients[..|clients| - 1];
    if i < |front| {
      assert clients[i := c][..|clients| - 1] == front[i := c];
      WorkUpdate(front, i, c);
    } else {
      assert clients[i := c][..|clients| - 1] == front;
    }
  }

  /** Every step leaves less to do, so no schedule is longer than the work it started with. */
  lemma SchedulesEnd(s: System, steps: seq<nat>)
    requires Schedule(s, steps)
    ensures |steps| + Work(Run(s, steps).clients) <= Work(s.clients)
    decreases steps
  {
    if steps != [] {
      var i := steps[0];
      WorkUpdate(s.clients, i, Step(s, i).clients[i]);
      assert Step(s, i).clients == s.clients[i := Step(s, i).clients[i]];
      SchedulesEnd(Step(s, i), steps[1..]);
    }
  }

  /** Hence a schedule that cannot go on has everyone done. */
  lemma EveryoneGetsThrough(scripts: seq<seq<Act>>, steps: seq<nat>, i: nat)
    requires AllOrdered(scripts) && Schedule(Start(scripts), steps) && i < |scripts|
    requires forall j | 0 <= j < |scripts| :: !CanStep(Run(Start(scripts), steps), j)
    ensures Done(Run(Start(scripts), steps).clients[i])
  {
    StartIsInv(scripts);
    RunIsInv(Start(scripts), steps);
    if !Done(Run(Start(scripts), steps).clients[i]) {
      var j := NoDeadlock(scripts, steps, i);
    }
  }

  // ---- without the rule ----

  /** Any client that takes world while holding company can deadlock with one that obeys the rule. */
  lemma CrossedOrderDeadlocks(a: seq<Act>, b: seq<Act>)
    ensures var s := Start([[Acquire(World), Acquire(Company)] + a, [Acquire(Company), Acquire(World)] + b]);
            var steps := [0, 0] + ([1, 1] + [0, 1]);
            && Schedule(s, steps)
            && !CanStep(Run(s, steps), 0) && !CanStep(Run(s, steps), 1)
            && !Done(Run(s, steps).clients[0]) && !Done(Run(s, steps).clients[1])
  {
    var s0 := Start([[Acquire(World), Acquire(Company)] + a, [Acquire(Company), Acquire(World)] + b]);
    var s4 := HoldBoth(s0, a, b);
    CrossedEnd(s4, a, b);
    ScheduleTwo(Step(Step(s0, 0), 0), 1, [0, 1]);
    ScheduleTwo(s0, 0, [1, 1] + [0, 1]);
  }

  lemma HoldBoth(s: System, a: seq<Act>, b: seq<Act>) returns (t: System)
    requires s.world == s.company == []
    requires s.clients == [Ready([Acquire(World), Acquire(Company)] + a), Ready([Acquire(Company), Acquire(World)] + b)]
    ensures CanStep(s, 0) && CanStep(Step(s, 0), 0)
    ensures var u := Step(Step(s, 0), 0); CanStep(u, 1) && CanStep(Step(u, 1), 1) && t == Step(Step(u, 1), 1)
    ensures t == System([Ready([Acquire(Company)] + a), Ready([Acquire(World)] + b)], [0], [1])
  {
    assert [Acquire(World), Acquire(Company)] + a == [Acquire(World)] + ([Acquire(Company)] + a);
    assert [Acquire(Company), Acquire(World)] + b == [Acquire(Company)] + ([Acquire(World)] + b);
    var u := CallAndEnter(s, 0, World, [Acquire(Company)] + a);
    t := CallAndEnter(u, 1, Company, [Acquire(World)] + b);
  }

  lemma CrossedEnd(s: System, a: seq<Act>, b: seq<Act>)
    requires s == System([Ready([Acquire(Company)] + a), Ready([Acquire(World)] + b)], [0], [1])
    ensures Schedule(s, [0, 1])
    ensures var t := Run(s, [0, 1]); !CanStep(t, 0) && !CanStep(t, 1) && !Done(t.clients[0]) && !Done(t.clients[1])
  {
    var u := CallOnly(s, 0, Company, a);
    var t := CallOnly(u, 1, World, b);
    assert t == System([Queued(Company, a), Queued(World, b)], [0, 1], [1, 0]);
    ScheduleOne(u, 1, []);
    ScheduleOne(s, 0, [1]);
    assert [1] + [] == [1] && [0] + [1] == [0, 1];
  }

  lemma CallOnly(s: System, i: nat, l: Lock, rest: seq<Act>) returns (t: System)
    requires i < |s.clients| && s.clients[i] == Ready([Acquire(l)] + rest)
    ensures CanStep(s, i) && t == Step(s, i)
    ensures t == WithQueue(s.(clients := s.clients[i := Queued(l, rest)]), l, Queue(s, l) + [i])
  {
    t := Step(s, i);
    assert ([Acquire(l)] + rest)[1..] == rest;
  }

  lemma CallAndEnter(s: System, i: nat, l: Lock, rest: seq<Act>) returns (t: System)
    requires i < |s.clients| && s.clients[i] == Ready([Acquire(l)] + rest) && Queue(s, l) == []
    ensures CanStep(s, i) && CanStep(Step(s, i), i) && t == Step(Step(s, i), i)
    ensures t == WithQueue(s.(clients := s.clients[i := Ready(rest)]), l, [i])
  {
    var u := CallOnly(s, i, l, rest);
    assert Queue(u, l) == [i];
    t := Step(u, i);
  }

  lemma ScheduleOne(s: System, i: nat, rest: seq<nat>)
    requires CanStep(s, i) && Schedule(Step(s, i), rest)
    ensures Schedule(s, [i] + rest) && Run(s, [i] + rest) == Run(Step(s, i), rest)
  {
    assert ([i] + rest)[1..] == rest;
  }

  lemma ScheduleTwo(s: System, i: nat, rest: seq<nat>)
    requires CanStep(s, i) && CanStep(Step(s, i), i) && Schedule(Step(Step(s, i), i), rest)
    ensures Schedule(s, [i, i] + rest) && Run(s, [i, i] + rest) == Run(Step(Step(s, i), i), rest)
  {
    ScheduleOne(Step(s, i), i, rest);
    ScheduleOne(s, i, [i] + rest);
    assert [i] + ([i] + rest) == [i, i] + rest;
  }

  /** And so is entering one lock twice. */
  lemma ReentryDeadlocks(l: Lock, rest: seq<Act>)
    ensures var s := Start([[Acquire(l), Acquire(l)] + rest]);
            && Schedule(s, [0, 0, 0])
            && !CanStep(Run(s, [0, 0, 0]), 0) && !Done(Run(s, [0, 0, 0]).clients[0])
  {
    var s0 := Start([[Acquire(l), Acquire(l)] + rest]);
    assert [Acquire(l), Acquire(l)] + rest == [Acquire(l)] + ([Acquire(l)] + rest);
    assert Queue(s0, l) == [];
    var s2 := CallAndEnter(s0, 0, l, [Acquire(l)] + rest);
    assert Queue(s2, l) == [0];
    var s3 := CallOnly(s2, 0, l, rest);
    assert Queue(s3, l) == [0, 0] && [0, 0][1..] == [0];
    ScheduleOne(s2, 0, []);
    ScheduleTwo(s0, 0, [0]);
    assert [0, 0] + [0] == [0, 0, 0] && [0] + [] == [0];
  }
}

/** The background pulse of the world: ticks run in chunks, one coalesced save ends the pulse, and
    a failed save is remembered for the next one. */
module {:induction false} WorldPulse {
  import opened Options

  const CATCH_UP_LOCK_CHUNK_TICKS: nat := 2

  /** How much of the planet in memory the store does not have. */
  datatype Level = Clean | Landing | Planet

  datatype Slice = ArrivalSlice | FullSlice

  /** What a chunk reports. */
  datatype Timing = Timing(realAdvanced: nat, settled: nat, dirty: bool, needsFull: bool)

  predicate NeedsFull(t: Timing) {
    t.needsFull || t.realAdvanced > 0
  }

  /** What a chunk changed: nothing, no more than the landing slice, or more. */
  function Change(t: Timing): Level {
    if !t.dirty then Clean else if t.needsFull || t.realAdvanced > 0 then Planet else Landing
  }

  function Raise(a: Level, b: Level): Level {
    if a.Planet? || b.Planet? then Planet else if a.Landing? || b.Landing? then Landing else Clean
  }

  /** The landing slice does not cover a change that needed the whole planet. */
  function AfterSave(unsaved: Level, slice: Slice): Level {
    if slice.FullSlice? || unsaved.Landing? then Clean else unsaved
  }

  /** What `advance` hands back: zeros when it did not run or failed. */
  datatype Outcome = Outcome(advanced: nat, settled: nat)

  const NOTHING := Outcome(0, 0)

  /** Where the pulse in flight stands between two awaits. */
  datatype Phase =
    | Idle
    | Preparing(want: nat, cooperative: bool)
    | Chunking(want: nat, cooperative: bool, remaining: nat, chunks: seq<nat>, settled: nat, dirty: bool, full: bool)
    | Saving(advanced: nat, settled: nat, full: bool)

  /** `unpersisted` is the service's flag, `unsaved` what is true of memory and store; outcomes
      and saves are listed in order. */
  datatype Service = Service(phase: Phase, unpersisted: bool, unsaved: Level, begun: nat,
                             outcomes: seq<Outcome>, saves: seq<Slice>)

  const START := Service(Idle, false, Clean, 0, [], [])

  datatype Event =
    | Call(ready: bool, n: real, cooperative: bool)
    | Prepared
    | HookThrown(change: Level)
    | ChunkDone(timing: Timing)
    | ChunkThrown(change: Level)
    | SaveDone(ok: bool)

  function Wanted(n: real): nat {
    if n.Floor < 1 then 1 else n.Floor
  }

  function Chunk(cooperative: bool, remaining: nat): nat {
    if cooperative && remaining > CATCH_UP_LOCK_CHUNK_TICKS then CATCH_UP_LOCK_CHUNK_TICKS else remaining
  }

  function End(s: Service, o: Outcome): Service {
    s.(phase := Idle, outcomes := s.outcomes + [o])
  }

  function Begin(s: Service, ready: bool, n: real, cooperative: bool): Service {
    if !ready || !s.phase.Idle? then s
    else s.(phase := Preparing(Wanted(n), cooperative), begun := s.begun + 1)
  }

  /** The hook before the first chunk returned. */
  function Prepare(s: Service): Service {
    if !s.phase.Preparing? then s
    else s.(phase := Chunking(s.phase.want, s.phase.cooperative, s.phase.want, [], 0, s.unpersisted, s.unpersisted))
  }

  /** The hook threw, having changed the planet in memory by `change`. */
  function AfterHookThrow(s: Service, change: Level): Service {
    if !s.phase.Preparing? then s else End(s.(unsaved := Raise(s.unsaved, change)), NOTHING)
  }

  function Total(chunks: seq<nat>): nat {
    if chunks == [] then 0 else Total(chunks[..|chunks| - 1]) + chunks[|chunks| - 1]
  }

  function Tick(p: Phase, t: Timing): Phase
    requires p.Chunking?
  {
    var c := Chunk(p.cooperative, p.remaining);
    p.(remaining := p.remaining - c, chunks := p.chunks + [c], settled := p.settled + t.settled,
       dirty := p.dirty || t.dirty, full := p.full || NeedsFull(t))
  }

  /** A chunk returned; after the last one the pulse saves when something is dirty. */
  function AfterChunk(s: Service, t: Timing): Service {
    if !s.phase.Chunking? then s
    else
      var p := Tick(s.phase, t);
      var u := s.(unsaved := Raise(s.unsaved, Change(t)));
      if p.remaining > 0 then u.(phase := p)
      else if p.dirty then u.(phase := Saving(Total(p.chunks), p.settled, p.full))
      else End(u.(unpersisted := false), Outcome(Total(p.chunks), p.settled))
  }

  /** A chunk threw, having changed the planet in memory by `change`: its report is lost, and so are
      the marks of the chunks before it. */
  function AfterThrow(s: Service, change: Level): Service {
    if !s.phase.Chunking? then s else End(s.(unsaved := Raise(s.unsaved, change)), NOTHING)
  }

  function SliceOf(full: bool): Slice {
    if full then FullSlice else ArrivalSlice
  }

  function Saved(s: Service, ok: bool): Service {
    if !s.phase.Saving? then s
    else if !ok then End(s.(unpersisted := true), NOTHING)
    else
      var slice := SliceOf(s.phase.full);
      End(s.(unpersisted := false, unsaved := AfterSave(s.unsaved, slice), saves := s.saves + [slice]),
          Outcome(s.phase.advanced, s.phase.settled))
  }

  function Apply(s: Service, e: Event): Service {
    match e
    case Call(ready, n, cooperative) => Begin(s, ready, n, cooperative)
    case Prepared => Prepare(s)
    case HookThrown(change) => AfterHookThrow(s, change)
    case ChunkDone(t) => AfterChunk(s, t)
    case ChunkThrown(change) => AfterThrow(s, change)
    case SaveDone(ok) => Saved(s, ok)
  }

  function Run(s: Service, events: seq<Event>): Service
    decreases events
  {
    if events == [] then s else Run(Apply(s, events[0]), events[1..])
  }

  // ---- the invariant ----

  /** The chunks so far: all of full size while the pulse cooperates. */
  predicate ChunksOk(p: Phase)
    requires p.Chunking?
  {
    && p.remaining > 0
    && Total(p.chunks) + p.remaining == p.want
    && (forall c <- p.chunks :: c == CATCH_UP_LOCK_CHUNK_TICKS && p.cooperative)
  }

  /** Whatever the store lacks is covered by the flag or by the marks of the pulse in flight. */
  predicate Remembered(s: Service) {
    match s.phase
    case Chunking(_, _, _, _, _, dirty, full) =>
      && (!s.unsaved.Clean? ==> dirty)
      && (s.unsaved.Planet? ==> full)
      && (s.unpersisted ==> dirty && full)
      && (dirty && !s.unpersisted ==> !s.unsaved.Clean?)
    case Saving(_, _, full) => (s.unsaved.Planet? ==> full) && (s.unpersisted ==> full)
    case _ => !s.unsaved.Clean? ==> s.unpersisted
  }

  predicate Inv(s: Service) {
    && Remembered(s)
    && (s.phase.Chunking? ==> ChunksOk(s.phase))
    && (s.phase.Preparing? ==> s.phase.want >= 1)
    && s.begun == |s.outcomes| + (if s.phase.Idle? then 0 else 1)
  }

  /** A throw is harmless when it leaves no change behind that nothing remembers: neither earlier
      chunks of the pulse nor the throwing step changed the planet, or the flag is already set. */
  predicate Harmless(s: Service, e: Event) {
    && (e.ChunkThrown? && s.phase.Chunking? && (s.phase.dirty || !e.change.Clean?) ==> s.unpersisted)
    && (e.HookThrown? && s.phase.Preparing? && !e.change.Clean? ==> s.unpersisted)
  }

  lemma TickKeeps(p: Phase, t: Timing)
    requires p.Chunking? && ChunksOk(p)
    ensures var q := Tick(p, t);
            && Total(q.chunks) + q.remaining == p.want
            && (q.remaining > 0 ==> ChunksOk(q))
  {
    var c := Chunk(p.cooperative, p.remaining);
    assert (p.chunks + [c])[..|p.chunks|] == p.chunks;
  }

  lemma StepKeeps(s: Service, e: Event)
    requires Inv(s) && Harmless(s, e)
    ensures Inv(Apply(s, e))
  {
    if e.ChunkDone? && s.phase.Chunking? {
      TickKeeps(s.phase, e.timing);
    }
  }

  /** Exactly the other throws make the service forget a change. */
  lemma ThrowForgetsIff(s: Service, change: Level)
    requires Inv(s) && s.phase.Chunking?
    ensures Remembered(AfterThrow(s, change)) <==> (s.phase.dirty || !change.Clean? ==> s.unpersisted)
  {
  }

  lemma HookForgetsIff(s: Service, change: Level)
    requires Inv(s) && s.phase.Preparing?
    ensures Remembered(AfterHookThrow(s, change)) <==> (!change.Clean? ==> s.unpersisted)
  {
  }

  predicate HarmlessRun(s: Service, events: seq<Event>)
    decreases events
  {
    events == [] || (Harmless(s, events[0]) && HarmlessRun(Apply(s, events[0]), events[1..]))
  }

  lemma RunKeeps(s: Service, events: seq<Event>)
    requires Inv(s) && HarmlessRun(s, events)
    ensures Inv(Run(s, events))
    decreases events
  {
    if events != [] {
      StepKeeps(s, events[0]);
      RunKeeps(Apply(s, events[0]), events[1..]);
    }
  }

  // ---- what holds in every run ----

  /** Between pulses, memory differs from the store only if the service remembers it. */
  lemma NothingIsForgotten(events: seq<Event>)
    requires HarmlessRun(START, events)
    ensures var s := Run(START, events);
            s.phase.Idle? && !s.unsaved.Clean? ==> s.unpersisted
  {
    RunKeeps(START, events);
  }

  /** A failure other than a save: a chunk that throws, or a hook that throws half way. */
  predicate Throws(e: Event) {
    e.ChunkThrown? || (e.HookThrown? && !e.change.Clean?)
  }

  /** Runs whose only failures are saves are harmless. */
  lemma SaveFailuresAreHarmless(s: Service, events: seq<Event>)
    requires forall e <- events :: !Throws(e)
    ensures HarmlessRun(s, events)
    decreases events
  {
    if events != [] {
      assert events[0] in events;
      SaveFailuresAreHarmless(Apply(s, events[0]), events[1..]);
    }
  }

  /** Every save that lands leaves nothing unsaved; in particular a landing-slice save happens only
      when nothing since the last good save needed more. */
  lemma SavesSuffice(events: seq<Event>)
    requires HarmlessRun(START, events) && Run(START, events).phase.Saving?
    ensures var s := Run(START, events);
            && Saved(s, true).unsaved == Clean
            && (SliceOf(s.phase.full) == ArrivalSlice ==> s.unsaved != Planet && !s.unpersisted)
  {
    RunKeeps(START, events);
  }

  // ---- several calls at once ----

  /** Calls of `advance` share the flag `pulseInFlight` and the fields of the service (in `core`, whose
      own phase is not used); each keeps its own locals, and is idle once it has returned. */
  datatype Calls = Calls(inFlight: bool, core: Service, locals: seq<Phase>)

  const NO_CALLS := Calls(false, START, [])

  datatype CallEvent = NewCall(ready: bool, n: real, cooperative: bool) | Step(call: nat, event: Event)

  /** The service as one call sees it. */
  function Seen(m: Calls, p: Phase): Service {
    m.core.(phase := p)
  }

  /** A new call passes the guards or returns zeros; a step of a call works on its own locals, and the
      `finally` of a call that ends lowers the flag. */
  function ApplyCall(m: Calls, e: CallEvent): Calls {
    match e
    case NewCall(ready, n, cooperative) =>
      if !ready || m.inFlight then m.(locals := m.locals + [Idle])
      else
        var t := Begin(Seen(m, Idle), ready, n, cooperative);
        Calls(true, t.(phase := Idle), m.locals + [t.phase])
    case Step(i, event) =>
      if i >= |m.locals| || m.locals[i].Idle? || event.Call? then m
      else
        var t := Apply(Seen(m, m.locals[i]), event);
        Calls(m.inFlight && !t.phase.Idle?, t.(phase := Idle), m.locals[i := t.phase])
  }

  function RunCalls(m: Calls, events: seq<CallEvent>): Calls
    decreases events
  {
    if events == [] then m else RunCalls(ApplyCall(m, events[0]), events[1..])
  }

  predicate Past(m: Calls, i: nat) {
    i < |m.locals| && !m.locals[i].Idle?
  }

  ghost predicate SomeActive(locals: seq<Phase>) {
    exists i | 0 <= i < |locals| :: !locals[i].Idle?
  }

  ghost predicate OneActive(locals: seq<Phase>) {
    forall i, j | 0 <= i < j < |locals| :: locals[i].Idle? || locals[j].Idle?
  }

  /** At most one call is past the guard, and while one is, the flag is up. */
  ghost predicate CallsOk(m: Calls) {
    m.core.phase.Idle? && OneActive(m.locals) && (m.inFlight <==> SomeActive(m.locals))
  }

  lemma AppendActive(locals: seq<Phase>, p: Phase)
    requires OneActive(locals) && (SomeActive(locals) ==> p.Idle?)
    ensures OneActive(locals + [p]) && (SomeActive(locals + [p]) <==> SomeActive(locals) || !p.Idle?)
  {
    var all := locals + [p];
    assert all[|locals|] == p;
    forall i, j | 0 <= i < j < |all| ensures all[i].Idle? || all[j].Idle? {
      assert all[i] == locals[i];
    }
    if SomeActive(locals) {
      var i :| 0 <= i < |locals| && !locals[i].Idle?;
      assert !all[i].Idle?;
    }
    if SomeActive(all) {
      var i :| 0 <= i < |all| && !all[i].Idle?;
      assert i < |locals| ==> !locals[i].Idle?;
    }
  }

  lemma UpdateActive(locals: seq<Phase>, k: nat, p: Phase)
    requires OneActive(locals) && k < |locals| && !locals[k].Idle?
    ensures OneActive(locals[k := p]) && (SomeActive(locals[k := p]) <==> !p.Idle?)
    ensures Active(locals) == locals[k] && Active(locals[k := p]) == p
  {
    var all := locals[k := p];
    assert all[k] == p;
    forall i | 0 <= i < |locals| && i != k ensures locals[i].Idle? && all[i].Idle? {
      assert locals[k].Idle? || locals[i].Idle?;
    }
    ActiveIs(locals, k);
    ActiveIs(all, k);
  }

  lemma CallKeeps(m: Calls, e: CallEvent)
    requires CallsOk(m)
    ensures CallsOk(ApplyCall(m, e))
  {
    match e
    case NewCall(ready, n, cooperative) =>
      AppendActive(m.locals, if !ready || m.inFlight then Idle else Begin(Seen(m, Idle), ready, n, cooperative).phase);
    case Step(k, event) =>
      if k < |m.locals| && !m.locals[k].Idle? && !event.Call? {
        assert SomeActive(m.locals);
        UpdateActive(m.locals, k, Apply(Seen(m, m.locals[k]), event).phase);
      }
  }

  lemma OnlyOne(m: Calls, i: nat, j: nat)
    requires CallsOk(m) && Past(m, i) && Past(m, j)
    ensures i == j && m.inFlight
  {
  }

  /** However calls of `advance` overlap, at most one of them is past the guard. */
  lemma PulsesNeverOverlap(events: seq<CallEvent>, i: nat, j: nat)
    requires Past(RunCalls(NO_CALLS, events), i) && Past(RunCalls(NO_CALLS, events), j)
    ensures i == j && RunCalls(NO_CALLS, events).inFlight
  {
    CallsStayOk(NO_CALLS, events);
    var m := RunCalls(NO_CALLS, events);
    OnlyOne(m, i, j);
  }

  lemma CallsStayOk(m: Calls, events: seq<CallEvent>)
    requires CallsOk(m)
    ensures CallsOk(RunCalls(m, events))
    decreases events
  {
    if events != [] {
      CallKeeps(m, events[0]);
      CallsStayOk(ApplyCall(m, events[0]), events[1..]);
    }
  }

  /** The phase of the call past the guard, if any. */
  function Active(locals: seq<Phase>): Phase {
    if locals == [] then Idle
    else if locals[|locals| - 1].Idle? then Active(locals[..|locals| - 1])
    else locals[|locals| - 1]
  }

  /** All calls together, seen as one pulse at a time. */
  function Flight(m: Calls): Service {
    Seen(m, Active(m.locals))
  }

  lemma ActiveIs(locals: seq<Phase>, i: nat)
    requires i < |locals| && forall j | 0 <= j < |locals| :: j != i ==> locals[j].Idle?
    ensures Active(locals) == locals[i]
    decreases |locals|
  {
    if i == |locals| - 1 {
      if locals[i].Idle? {
        NoneActive(locals);
      }
    } else {
      ActiveIs(locals[..|locals| - 1], i);
    }
  }

  lemma NoneActive(locals: seq<Phase>)
    requires forall j | 0 <= j < |locals| :: locals[j].Idle?
    ensures Active(locals) == Idle
    decreases |locals|
  {
    if locals != [] {
      NoneActive(locals[..|locals| - 1]);
    }
  }

  /** The step of the single pulse that a step of some call is. */
  function Trace(m: Calls, e: CallEvent): seq<Event> {
    match e
    case NewCall(ready, n, cooperative) => [Call(ready, n, cooperative)]
    case Step(i, event) => if i >= |m.locals| || m.locals[i].Idle? || event.Call? then [] else [event]
  }

  function Traces(m: Calls, events: seq<CallEvent>): seq<Event>
    decreases events
  {
    if events == [] then [] else Trace(m, events[0]) + Traces(ApplyCall(m, events[0]), events[1..])
  }

  lemma FlightSteps(m: Calls, e: CallEvent)
    requires CallsOk(m)
    ensures Flight(ApplyCall(m, e)) == Run(Flight(m), Trace(m, e))
  {
    match e
    case NewCall(ready, n, cooperative) =>
      RunSingle(Flight(m), Call(ready, n, cooperative));
      NewCallSteps(m, ready, n, cooperative);
    case Step(i, event) =>
      if Trace(m, e) != [] {
        RunSingle(Flight(m), event);
        UpdateActive(m.locals, i, Apply(Seen(m, m.locals[i]), event).phase);
      }
  }

  lemma RunSingle(s: Service, e: Event)
    ensures Run(s, [e]) == Apply(s, e)
  {
    assert [e][1..] == [];
  }

  lemma NewCallSteps(m: Calls, ready: bool, n: real, cooperative: bool)
    requires CallsOk(m)
    ensures Flight(ApplyCall(m, NewCall(ready, n, cooperative))) == Begin(Flight(m), ready, n, cooperative)
  {
    var t := ApplyCall(m, NewCall(ready, n, cooperative));
    assert t.locals[..|m.locals|] == m.locals;
    ActiveIff(m.locals);
  }

  lemma ActiveIff(locals: seq<Phase>)
    ensures SomeActive(locals) <==> !Active(locals).Idle?
    decreases |locals|
  {
    if locals != [] {
      var front := locals[..|locals| - 1];
      ActiveIff(front);
      if SomeActive(front) {
        var i :| 0 <= i < |front| && !front[i].Idle?;
        assert !locals[i].Idle?;
      }
      if SomeActive(locals) {
        var i :| 0 <= i < |locals| && !locals[i].Idle?;
        assert i < |front| ==> !front[i].Idle?;
      }
    }
  }

  /** Any run of overlapping calls is a run of one pulse at a time: what holds between pulses there holds
      here whenever no call is past the guard. */
  lemma CallsRefineOnePulse(m: Calls, events: seq<CallEvent>)
    requires CallsOk(m)
    ensures Flight(RunCalls(m, events)) == Run(Flight(m), Traces(m, events))
    decreases events
  {
    if events != [] {
      var n := ApplyCall(m, events[0]);
      CallKeeps(m, events[0]);
      FlightSteps(m, events[0]);
      CallsRefineOnePulse(n, events[1..]);
      RunAppend(Flight(m), Trace(m, events[0]), Traces(n, events[1..]));
    }
  }

  /** So overlapping calls forget nothing either. */
  lemma NoCallForgets(events: seq<CallEvent>)
    requires HarmlessRun(START, Traces(NO_CALLS, events))
    ensures var m := RunCalls(NO_CALLS, events);
            !m.inFlight && !m.core.unsaved.Clean? ==> m.core.unpersisted
  {
    CallsStayOk(NO_CALLS, events);
    CallsRefineOnePulse(NO_CALLS, events);
    NothingIsForgotten(Traces(NO_CALLS, events));
    ActiveIff(RunCalls(NO_CALLS, events).locals);
  }

  // ---- one pulse from end to end ----

  function ChunkEvents(ts: seq<Timing>): seq<Event> {
    if ts == [] then [] else [ChunkDone(ts[0])] + ChunkEvents(ts[1..])
  }

  lemma RunOne(s: Service, e: Event, rest: seq<Event>)
    ensures Run(s, [e] + rest) == Run(Apply(s, e), rest)
  {
    assert ([e] + rest)[1..] == rest;
  }

  lemma RunAppend(s: Service, xs: seq<Event>, ys: seq<Event>)
    ensures Run(s, xs + ys) == Run(Run(s, xs), ys)
    decreases xs
  {
    if xs == [] {
      assert xs + ys == ys;
    } else {
      assert (xs + ys)[0] == xs[0] && (xs + ys)[1..] == xs[1..] + ys;
      RunAppend(Apply(s, xs[0]), xs[1..], ys);
    }
  }

  /** How many chunks `remaining` ticks take. */
  function ChunkCount(cooperative: bool, remaining: nat): nat
    decreases remaining
  {
    if remaining == 0 then 0 else 1 + ChunkCount(cooperative, remaining - Chunk(cooperative, remaining))
  }

  /** The end of the chunks: the pulse saves, or has nothing to save. */
  predicate Finished(s: Service, outcomes: seq<Outcome>, o: Outcome) {
    if s.phase.Saving? then Outcome(s.phase.advanced, s.phase.settled) == o && s.outcomes == outcomes
    else s.phase.Idle? && s.outcomes == outcomes + [o] && !s.unpersisted
  }

  lemma LastChunk(s: Service, t: Timing)
    requires Inv(s) && s.phase.Chunking? && ChunkCount(s.phase.cooperative, s.phase.remaining) == 1
    ensures Finished(AfterChunk(s, t), s.outcomes, Outcome(s.phase.want, s.phase.settled + t.settled))
  {
    TickKeeps(s.phase, t);
  }

  lemma EarlierChunk(s: Service, t: Timing)
    requires Inv(s) && s.phase.Chunking? && ChunkCount(s.phase.cooperative, s.phase.remaining) > 1
    ensures var u := AfterChunk(s, t);
            && Inv(u) && u.phase.Chunking? && u.outcomes == s.outcomes && u.unpersisted == s.unpersisted
            && u.phase.want == s.phase.want && u.phase.settled == s.phase.settled + t.settled
            && ChunkCount(u.phase.cooperative, u.phase.remaining) == ChunkCount(s.phase.cooperative, s.phase.remaining) - 1
  {
    StepKeeps(s, ChunkDone(t));
  }

  function Settled(ts: seq<Timing>): nat {
    if ts == [] then 0 else ts[0].settled + Settled(ts[1..])
  }

  /** The service after so many chunks have returned. */
  function AfterChunks(s: Service, ts: seq<Timing>): Service
    decreases ts
  {
    if ts == [] then s else AfterChunks(AfterChunk(s, ts[0]), ts[1..])
  }

  lemma ChunkEventsRun(s: Service, ts: seq<Timing>)
    ensures Run(s, ChunkEvents(ts)) == AfterChunks(s, ts)
    decreases ts
  {
    if ts != [] {
      RunOne(s, ChunkDone(ts[0]), ChunkEvents(ts[1..]));
      ChunkEventsRun(AfterChunk(s, ts[0]), ts[1..]);
    }
  }

  /** Where a pulse with these chunks to come ends up. */
  predicate Finishes(end: Service, s: Service, ts: seq<Timing>)
    requires s.phase.Chunking?
  {
    && Finished(end, s.outcomes, Outcome(s.phase.want, s.phase.settled + Settled(ts)))
    && (s.unpersisted ==> end.phase.Saving? && end.phase.full)
  }

  lemma OneMore(end: Service, s: Service, ts: seq<Timing>)
    requires Inv(s) && s.phase.Chunking? && ts != []
    requires ChunkCount(s.phase.cooperative, s.phase.remaining) > 1
    requires AfterChunk(s, ts[0]).phase.Chunking? && Finishes(end, AfterChunk(s, ts[0]), ts[1..])
    ensures Finishes(end, s, ts)
  {
    EarlierChunk(s, ts[0]);
  }

  lemma ChunksFinish(s: Service, ts: seq<Timing>)
    requires Inv(s) && s.phase.Chunking?
    requires |ts| == ChunkCount(s.phase.cooperative, s.phase.remaining)
    ensures Finishes(AfterChunks(s, ts), s, ts)
    decreases |ts|
  {
    var u := AfterChunk(s, ts[0]);
    if |ts| == 1 {
      LastChunk(s, ts[0]);
      assert ts[1..] == [];
      assert AfterChunks(s, ts) == AfterChunks(u, []) == u && Settled([]) == 0;
    } else {
      EarlierChunk(s, ts[0]);
      ChunksFinish(u, ts[1..]);
      OneMore(AfterChunks(u, ts[1..]), s, ts);
    }
  }

  /** After a failed save, the next pulse that gets through its chunks asks for a full save,
      however clean its own chunks were. */
  lemma NextPulseSavesFull(s: Service, ts: seq<Timing>)
    requires Inv(s) && s.unpersisted && s.phase.Chunking?
    requires |ts| == ChunkCount(s.phase.cooperative, s.phase.remaining)
    ensures var t := Run(s, ChunkEvents(ts));
            t.phase.Saving? && t.phase.full && t.phase.advanced == s.phase.want
  {
    ChunkEventsRun(s, ts);
    ChunksFinish(s, ts);
  }

  /** A pulse whose chunks all return has run exactly the ticks it was asked for. */
  lemma PulseRunsWhatWasAsked(s: Service, ts: seq<Timing>)
    requires Inv(s) && s.phase.Chunking?
    requires |ts| == ChunkCount(s.phase.cooperative, s.phase.remaining)
    ensures Finished(Run(s, ChunkEvents(ts)), s.outcomes, Outcome(s.phase.want, s.phase.settled + Settled(ts)))
  {
    ChunkEventsRun(s, ts);
    ChunksFinish(s, ts);
  }

  /** Everything a pulse of these ticks does until it saves or ends. */
  function PulseEvents(n: real, cooperative: bool, ts: seq<Timing>): seq<Event> {
    [Call(true, n, cooperative), Prepared] + ChunkEvents(ts)
  }

  lemma PulsePrepared(s: Service, n: real, cooperative: bool) returns (ticks: nat, b: Service)
    requires Inv(s) && s.phase.Idle?
    ensures ticks == (if n.Floor < 1 then 1 else n.Floor) && b == Prepare(Begin(s, true, n, cooperative)) && Inv(b)
    ensures b.phase.Chunking? && b.phase.want == b.phase.remaining == ticks && b.phase.cooperative == cooperative
    ensures b.phase.settled == 0 && b.outcomes == s.outcomes
  {
    ticks := if n.Floor < 1 then 1 else n.Floor;
    var a := Begin(s, true, n, cooperative);
    b := Prepare(a);
    StepKeeps(s, Call(true, n, cooperative));
    StepKeeps(a, Prepared);
  }

  lemma PulseRun(s: Service, n: real, cooperative: bool, ts: seq<Timing>)
    ensures Run(s, PulseEvents(n, cooperative, ts)) == Run(Prepare(Begin(s, true, n, cooperative)), ChunkEvents(ts))
  {
    var rest := ChunkEvents(ts);
    var call := Call(true, n, cooperative);
    assert PulseEvents(n, cooperative, ts) == [call] + ([Prepared] + rest);
    RunOne(s, call, [Prepared] + rest);
    RunOne(Begin(s, true, n, cooperative), Prepared, rest);
  }

  lemma PulseChunks(s: Service, n: real, cooperative: bool, ts: seq<Timing>, ticks: nat)
    requires Inv(s) && s.phase.Idle? && ticks == (if n.Floor < 1 then 1 else n.Floor)
    requires |ts| == ChunkCount(cooperative, ticks)
    ensures Finished(Run(s, PulseEvents(n, cooperative, ts)), s.outcomes, Outcome(ticks, Settled(ts)))
  {
    var t, b := PulsePrepared(s, n, cooperative);
    assert Run(s, PulseEvents(n, cooperative, ts)) == Run(b, ChunkEvents(ts)) by {
      PulseRun(s, n, cooperative, ts);
    }
    ChunksReport(b, ts, ticks, s.outcomes);
  }

  lemma ChunksReport(b: Service, ts: seq<Timing>, ticks: nat, outcomes: seq<Outcome>)
    requires Inv(b) && b.phase.Chunking? && b.phase.want == b.phase.remaining == ticks && b.phase.settled == 0
    requires |ts| == ChunkCount(b.phase.cooperative, ticks) && b.outcomes == outcomes
    ensures Finished(Run(b, ChunkEvents(ts)), outcomes, Outcome(ticks, Settled(ts)))
  {
    PulseRunsWhatWasAsked(b, ts);
  }

  /** Cooperative pulses run in chunks of two ticks, others in one. */
  lemma ChunksOfTwo(remaining: nat)
    ensures ChunkCount(true, remaining) == (remaining + 1) / 2
    ensures remaining > 0 ==> ChunkCount(false, remaining) == 1
    decreases remaining
  {
    if remaining > 0 {
      ChunksOfTwo(remaining - Chunk(true, remaining));
      assert ChunkCount(false, 0) == 0;
    }
  }

  /** Some chunk of the list was dirty, or needed the whole planet saved. */
  predicate AnyDirty(ts: seq<Timing>) {
    exists k | 0 <= k < |ts| :: ts[k].dirty
  }

  predicate AnyFull(ts: seq<Timing>) {
    exists k | 0 <= k < |ts| :: ts[k].needsFull || ts[k].realAdvanced > 0
  }

  lemma AnyTail(ts: seq<Timing>)
    requires ts != []
    ensures AnyDirty(ts) <==> ts[0].dirty || AnyDirty(ts[1..])
    ensures AnyFull(ts) <==> ts[0].needsFull || ts[0].realAdvanced > 0 || AnyFull(ts[1..])
  {
    assert forall k | 1 <= k < |ts| :: ts[1..][k - 1] == ts[k];
  }

  /** The pulse saves exactly when a chunk was dirty or the flag is up, and saves the landing slice only exactly
      when no chunk needed more and the flag is down. */
  lemma SaveIsNeeded(s: Service, ts: seq<Timing>)
    requires Inv(s) && s.phase.Chunking? && |ts| == ChunkCount(s.phase.cooperative, s.phase.remaining)
    ensures var t := AfterChunks(s, ts);
            && (t.phase.Saving? <==> s.phase.dirty || AnyDirty(ts))
            && (t.phase.Saving? ==> (t.phase.full <==> s.phase.full || AnyFull(ts))
                                    && Saved(t, true).saves == s.saves + [if s.phase.full || AnyFull(ts) then FullSlice else ArrivalSlice])
            && t.saves == s.saves
    decreases |ts|
  {
    var u := AfterChunk(s, ts[0]);
    AnyTail(ts);
    if |ts| == 1 {
      LastChunk(s, ts[0]);
      assert AfterChunks(s, ts) == AfterChunks(u, []) == u;
    } else {
      EarlierChunk(s, ts[0]);
      SaveIsNeeded(u, ts[1..]);
    }
  }

  /** What `advance` returns when its chunks return: the ticks asked for, at least one, and all flights
      settled; zeros when the save then fails. Either way the service is idle, and the flag says whether
      something is still to be saved. */
  lemma PulseReports(s: Service, n: real, cooperative: bool, ts: seq<Timing>, saves: bool)
    requires Inv(s) && s.phase.Idle?
    requires |ts| == ChunkCount(cooperative, if n.Floor < 1 then 1 else n.Floor)
    ensures var chunked := Run(s, PulseEvents(n, cooperative, ts));
            var end := if chunked.phase.Saving? then Saved(chunked, saves) else chunked;
            var whole := Outcome(if n.Floor < 1 then 1 else n.Floor, Settled(ts));
            && end.phase.Idle? && (end.unpersisted <==> chunked.phase.Saving? && !saves)
            && end.outcomes == s.outcomes + [if chunked.phase.Saving? && !saves then Outcome(0, 0) else whole]
  {
    PulseChunks(s, n, cooperative, ts, if n.Floor < 1 then 1 else n.Floor);
  }

  // ---- a change that is forgotten ----

  /** A pulse with nothing new to save saves nothing and leaves memory as it is. */
  lemma QuietPulseSavesNothing(s: Service)
    requires s.phase.Idle? && !s.unpersisted
    ensures Run(s, [Call(true, 2.0, true), Prepared, ChunkDone(Timing(0, 0, false, false))])
         == s.(begun := s.begun + 1, outcomes := s.outcomes + [Outcome(2, 0)])
  {
    var a, b := QuietStart(s);
    QuietChunk(b, Timing(0, 0, false, false));
    var t := Run3(s, Call(true, 2.0, true), Prepared, ChunkDone(Timing(0, 0, false, false)));
  }

  lemma QuietStart(s: Service) returns (a: Service, b: Service)
    requires s.phase.Idle? && !s.unpersisted
    ensures a == Apply(s, Call(true, 2.0, true)) && b == Apply(a, Prepared)
    ensures b == s.(phase := Chunking(2, true, 2, [], 0, false, false), begun := s.begun + 1)
  {
    a := Apply(s, Call(true, 2.0, true));
    b := Apply(a, Prepared);
  }

  lemma QuietChunk(s: Service, t: Timing)
    requires s.phase == Chunking(2, true, 2, [], 0, false, false) && !s.unpersisted && t == Timing(0, 0, false, false)
    ensures Apply(s, ChunkDone(t)) == s.(phase := Idle, outcomes := s.outcomes + [Outcome(2, 0)])
  {
    assert ([] + [2])[..0] == [] && Total([] + [2]) == 2;
  }

  const LOST: seq<Event> := [Call(true, 4.0, true), Prepared, ChunkDone(Timing(2, 0, true, false))] + [ChunkThrown(Clean)]

  /** The second chunk throws after the first changed the planet: the flag stays down, and the next
      pulse, with nothing new, does not save. */
  lemma ThrowingChunkLosesTheFlag()
    ensures var s := Run(START, LOST);
            && s.phase.Idle? && s.unsaved == Planet && !s.unpersisted && s.saves == []
    ensures var t := Run(Run(START, LOST), [Call(true, 2.0, true), Prepared, ChunkDone(Timing(0, 0, false, false))]);
            && t.phase.Idle? && t.unsaved == Planet && t.saves == []
  {
    var a := Run3(START, Call(true, 4.0, true), Prepared, ChunkDone(Timing(2, 0, true, false)));
    RunAppend(START, [Call(true, 4.0, true), Prepared, ChunkDone(Timing(2, 0, true, false))], [ChunkThrown(Clean)]);
    RunOne(a, ChunkThrown(Clean), []);
    assert [ChunkThrown(Clean)] + [] == [ChunkThrown(Clean)];
    QuietPulseSavesNothing(Run(START, LOST));
  }

  const LOST_AT_ONCE: seq<Event> := [Call(true, 2.0, true), Prepared, ChunkThrown(Planet)]

  /** The very first chunk ticks the planet and then throws: the same. */
  lemma FirstChunkLosesTheFlag()
    ensures var s := Run(START, LOST_AT_ONCE);
            && s.phase.Idle? && s.unsaved == Planet && !s.unpersisted && s.saves == []
    ensures var t := Run(Run(START, LOST_AT_ONCE), [Call(true, 2.0, true), Prepared, ChunkDone(Timing(0, 0, false, false))]);
            && t.phase.Idle? && t.unsaved == Planet && t.saves == []
  {
    var s := Run3(START, Call(true, 2.0, true), Prepared, ChunkThrown(Planet));
    QuietPulseSavesNothing(s);
  }

  lemma Run3(s: Service, a: Event, b: Event, c: Event) returns (t: Service)
    ensures t == Apply(Apply(Apply(s, a), b), c) && t == Run(s, [a, b, c])
  {
    t := Apply(Apply(Apply(s, a), b), c);
    assert [a] + [b, c] == [a, b, c] && [b] + [c] == [b, c] && [c] + [] == [c];
    RunOne(s, a, [b, c]);
    RunOne(Apply(s, a), b, [c]);
    RunOne(Apply(Apply(s, a), b), c, []);
  }

  // ---- the service object ----

  /** How a chunk ends. */
  datatype ChunkResult = Returned(timing: Timing) | Threw(change: Level)

  /** What the awaited hooks of one pulse will do: the hook before it (what it changed, if it throws),
      each chunk, the save. */
  datatype Script = Script(before: Option<Level>, chunk: nat -> ChunkResult, save: bool)

  function AfterHook(s: Service, before: Option<Level>): Service {
    match before
    case None => Prepare(s)
    case Some(change) => AfterHookThrow(s, change)
  }

  /** The chunks of a pulse from chunk number `k` on; a throwing chunk ends it. */
  function Chunks(s: Service, chunk: nat -> ChunkResult, k: nat): Service
    decreases if s.phase.Chunking? then s.phase.remaining else 0
  {
    if !s.phase.Chunking? || s.phase.remaining == 0 then s
    else
      match chunk(k)
      case Threw(change) => AfterThrow(s, change)
      case Returned(t) => Chunks(AfterChunk(s, t), chunk, k + 1)
  }

  /** One whole call of `advance`. */
  function Pulse(s: Service, ready: bool, n: real, cooperative: bool, script: Script): Service {
    if !ready || !s.phase.Idle? then s
    else Saved(Chunks(AfterHook(Begin(s, ready, n, cooperative), script.before), script.chunk, 0), script.save)
  }

  lemma ChunksKeep(s: Service, chunk: nat -> ChunkResult, k: nat)
    requires Inv(s) && !s.phase.Preparing? && forall i: nat :: chunk(i).Returned?
    ensures Inv(Chunks(s, chunk, k)) && !Chunks(s, chunk, k).phase.Preparing? && !Chunks(s, chunk, k).phase.Chunking?
    decreases if s.phase.Chunking? then s.phase.remaining else 0
  {
    if s.phase.Chunking? {
      var t := chunk(k).timing;
      StepKeeps(s, ChunkDone(t));
      ChunksKeep(AfterChunk(s, t), chunk, k + 1);
    }
  }

  predicate HookHarmless(s: Service, script: Script) {
    script.before.Some? && !script.before.value.Clean? ==> s.unpersisted
  }

  lemma PreparedKeeps(s: Service, script: Script)
    requires Inv(s) && s.phase.Preparing? && HookHarmless(s, script) && forall i: nat :: script.chunk(i).Returned?
    ensures var t := Saved(Chunks(AfterHook(s, script.before), script.chunk, 0), script.save);
            && Inv(t) && t.phase.Idle?
            && (script.before.None? && script.save ==> t.unsaved.Clean? && !t.unpersisted)
  {
    var q := AfterHook(s, script.before);
    match script.before {
      case None => StepKeeps(s, Prepared);
      case Some(change) => StepKeeps(s, HookThrown(change));
    }
    ChunksKeep(q, script.chunk, 0);
    SaveEnds(Chunks(q, script.chunk, 0), script.save);
    if script.before.None? {
      ChunksClear(q, script.chunk, 0);
    }
  }

  lemma SaveEnds(s: Service, ok: bool)
    requires Inv(s) && (s.phase.Idle? || s.phase.Saving?)
    ensures var t := Saved(s, ok);
            && Inv(t) && t.phase.Idle?
            && (s.phase.Idle? ==> t == s)
            && (s.phase.Saving? && ok ==> t.unsaved.Clean? && !t.unpersisted)
  {
  }

  /** A pulse whose chunks return ends idle, remembers what it did not save, and when its
      save landed there is nothing left to remember. */
  lemma PulseKeeps(s: Service, ready: bool, n: real, cooperative: bool, script: Script)
    requires Inv(s) && s.phase.Idle? && HookHarmless(s, script) && forall i: nat :: script.chunk(i).Returned?
    ensures var t := Pulse(s, ready, n, cooperative, script);
            && Inv(t) && t.phase.Idle?
            && (ready && script.before.None? && script.save ==> t.unsaved.Clean? && !t.unpersisted)
  {
    if ready {
      StepKeeps(s, Call(ready, n, cooperative));
      PreparedKeeps(Begin(s, ready, n, cooperative), script);
    }
  }

  /** A pulse that finds nothing to save has cleared the flag. */
  lemma ChunksClear(s: Service, chunk: nat -> ChunkResult, k: nat)
    requires Inv(s) && s.phase.Chunking? && forall i: nat :: chunk(i).Returned?
    ensures Chunks(s, chunk, k).phase.Idle? ==> !Chunks(s, chunk, k).unpersisted
    decreases s.phase.remaining
  {
    var t := chunk(k).timing;
    StepKeeps(s, ChunkDone(t));
    if AfterChunk(s, t).phase.Chunking? {
      ChunksClear(AfterChunk(s, t), chunk, k + 1);
    }
  }

  /** The pulse in the terms of its loop: between chunks, or at its end. */
  ghost predicate InLoop(s: Service, start: Service, p: Phase, advanced: nat)
    requires p.Chunking?
  {
    && advanced == Total(p.chunks)
    && (if p.remaining > 0 then s.phase == p && s.unpersisted == start.unpersisted && s.outcomes == start.outcomes
        else AtEnd(s, start, advanced, p.settled, p.dirty, p.full))
  }

  /** One chunk of the loop. */
  lemma OneChunk(s: Service, start: Service, p: Phase, advanced: nat, chunk: nat -> ChunkResult, k: nat)
    returns (u: Service)
    requires p.Chunking? && p.remaining > 0 && InLoop(s, start, p, advanced) && chunk(k).Returned?
    ensures Chunks(s, chunk, k) == Chunks(u, chunk, k + 1)
    ensures InLoop(u, start, Tick(p, chunk(k).timing), advanced + Chunk(p.cooperative, p.remaining))
  {
    u := AfterChunk(s, chunk(k).timing);
    assert (p.chunks + [Chunk(p.cooperative, p.remaining)])[..|p.chunks|] == p.chunks;
  }

  /** A throwing chunk ends the pulse with nothing to show. */
  lemma ThrowEnds(s: Service, chunk: nat -> ChunkResult, k: nat) returns (u: Service)
    requires s.phase.Chunking? && s.phase.remaining > 0 && chunk(k).Threw?
    ensures u == Chunks(s, chunk, k) && u == End(s.(unsaved := Raise(s.unsaved, chunk(k).change)), NOTHING)
  {
    u := AfterThrow(s, chunk(k).change);
  }

  /** Where the last chunk leaves a pulse. */
  ghost predicate AtEnd(s: Service, start: Service, advanced: nat, settled: nat, dirty: bool, full: bool) {
    if dirty then s.phase == Saving(advanced, settled, full) && s.outcomes == start.outcomes && s.unpersisted == start.unpersisted
    else s.phase.Idle? && s.outcomes == start.outcomes + [Outcome(advanced, settled)] && !s.unpersisted
  }

  class LocalWorldTickService {
    var pulseInFlight: bool
    var economyUnpersisted: bool
    ghost var service: Service

    ghost predicate Valid()
      reads this
    {
      pulseInFlight == !service.phase.Idle? && economyUnpersisted == service.unpersisted && Inv(service)
    }

    constructor ()
      ensures Valid() && service == START
    {
      pulseInFlight, economyUnpersisted, service := false, false, START;
    }

    method Advance(ready: bool, n: real, cooperative: bool, script: Script) returns (o: Outcome)
      requires Valid()
      modifies this
      ensures service == Pulse(old(service), ready, n, cooperative, script)
      ensures economyUnpersisted == service.unpersisted && pulseInFlight == !service.phase.Idle?
      ensures if service == old(service) then o == NOTHING else service.outcomes == old(service).outcomes + [o]
    {
      if !ready || pulseInFlight {
        return NOTHING;
      }
      ghost var start := service;
      pulseInFlight := true;
      service := Begin(service, ready, n, cooperative);
      if script.before.Some? {
        service := AfterHookThrow(service, script.before.value);
        pulseInFlight := false;
        return NOTHING;
      }
      service := Prepare(service);
      o := TickAndSave(Wanted(n), cooperative, script);
    }

    /** The pulse after its first hook: the chunks, then the coalesced save. */
    method TickAndSave(totalTicks: nat, cooperative: bool, script: Script) returns (o: Outcome)
      requires pulseInFlight && economyUnpersisted == service.unpersisted && totalTicks > 0
      requires service.phase == Chunking(totalTicks, cooperative, totalTicks, [], 0, service.unpersisted, service.unpersisted)
      modifies this
      ensures service == Saved(Chunks(old(service), script.chunk, 0), script.save)
      ensures economyUnpersisted == service.unpersisted && !pulseInFlight && service.phase.Idle?
      ensures service.outcomes == old(service).outcomes + [o]
    {
      var threw, advanced, settled, dirty, full := TickAll(totalTicks, cooperative, script.chunk);
      if threw {
        pulseInFlight := false;
        return NOTHING;
      }
      o := SaveWhatIsDirty(advanced, settled, dirty, full, script.save);
    }

    /** The chunk loop. */
    method TickAll(totalTicks: nat, cooperative: bool, chunk: nat -> ChunkResult)
      returns (threw: bool, advanced: nat, settled: nat, dirty: bool, full: bool)
      requires totalTicks > 0 && economyUnpersisted == service.unpersisted
      requires service.phase == Chunking(totalTicks, cooperative, totalTicks, [], 0, service.unpersisted, service.unpersisted)
      modifies this`service
      ensures service == Chunks(old(service), chunk, 0)
      ensures if threw then service == End(service.(outcomes := old(service).outcomes), NOTHING)
                            && service.unpersisted == old(service).unpersisted
              else AtEnd(service, old(service), advanced, settled, dirty, full)
    {
      var remaining, k := totalTicks, 0;
      advanced, settled, dirty, full := 0, 0, economyUnpersisted, economyUnpersisted;
      ghost var p := service.phase;
      while remaining > 0
        invariant p.Chunking? && p.remaining == remaining && p.cooperative == cooperative
        invariant p.settled == settled && p.dirty == dirty && p.full == full
        invariant Chunks(service, chunk, k) == Chunks(old(service), chunk, 0)
        invariant InLoop(service, old(service), p, advanced)
      {
        var result := chunk(k);
        if result.Threw? {
          service := ThrowEnds(service, chunk, k);
          threw := true;
          return;
        }
        var t := result.timing;
        service := OneChunk(service, old(service), p, advanced, chunk, k);
        p := Tick(p, t);
        settled, dirty, full := settled + t.settled, dirty || t.dirty, full || NeedsFull(t);
        var c := Chunk(cooperative, remaining);
        advanced, remaining, k := advanced + c, remaining - c, k + 1;
      }
      threw := false;
    }

    method SaveWhatIsDirty(advanced: nat, settled: nat, dirty: bool, full: bool, save: bool) returns (o: Outcome)
      requires dirty ==> service.phase == Saving(advanced, settled, full) && service.unpersisted == economyUnpersisted
      requires !dirty ==> service.phase.Idle? && !service.unpersisted
      requires !dirty ==> service.outcomes != [] && service.outcomes[|service.outcomes| - 1] == Outcome(advanced, settled)
      modifies this
      ensures service == Saved(old(service), save)
      ensures economyUnpersisted == service.unpersisted && !pulseInFlight && service.phase.Idle?
      ensures service.outcomes == if dirty then old(service).outcomes + [o] else old(service).outcomes
      ensures !dirty ==> o == Outcome(advanced, settled)
    {
      service := Saved(service, save);
      economyUnpersisted := dirty && !save;
      pulseInFlight := false;
      o := if dirty && !save then NOTHING else Outcome(advanced, settled);
    }
  }
}

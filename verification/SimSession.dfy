/** The SimConnect session of the host as a step machine: connecting in two locked sections,
    reading under the operation lock, replies, timeouts and tear-down in any order. */
module {:induction false} SimSession {
  import opened Options
  import opened SimReads

  const DYNAMIC_BASE: nat := 100
  const MAX_CACHED_BATCH_DEFS := 48
  const MAX_CACHED_SINGLE_DEFS := 64
  const TIMEOUT_STORM_LIMIT := 3
  const UNRECOGNIZED_ID_STORM_LIMIT := 5

  /** A request outstanding on a handle: the definition it named and who waits for it. */
  datatype Ticket = Ticket(def: nat, waiter: nat)

  /** A SimConnect handle: its registered definitions, its outstanding requests, and the ids of all
      requests ever asked on it. */
  datatype Handle = Handle(disposed: bool, defs: map<nat, seq<Datum>>, asked: map<nat, Ticket>, used: set<nat>)

  const FRESH := Handle(false, map[], map[], {})

  datatype Verdict = Waiting | Got(payload: Payload) | TimedOut | Dropped

  /** A completion source, in order of creation, with the request id it was made for. */
  datatype Waiter = Waiter(request: nat, verdict: Verdict)

  datatype Call = ReadOne(v: Var) | ReadMany(vars: seq<Var>) | WriteOne(v: Var)

  /** The one operation inside the operation lock, and how far it got. */
  datatype Op =
    | Idle
    | Entered(call: Call)
    | Captured(call: Call, handle: nat)
    | Awaiting(call: Call, handle: nat, waiter: nat)

  datatype Session = Session(
    live: Option<nat>,
    open: bool,
    nextDef: nat,
    nextReq: nat,
    batchCache: map<string, nat>,
    singleCache: map<string, nat>,
    pending: map<nat, nat>,
    op: Op,
    handles: seq<Handle>,
    waiters: seq<Waiter>,
    timeouts: nat,
    unrecognized: nat,
    tearing: bool,
    connectors: nat,
    owed: nat)

  const START := Session(None, false, DYNAMIC_BASE, DYNAMIC_BASE, map[], map[], map[], Idle, [], [], 0, 0, false, 0, 0)

  function LayoutOf(c: Call): seq<Datum> {
    match c
    case ReadOne(v) => [DatumOf(v)]
    case ReadMany(vars) => BatchLayout(vars)
    case WriteOne(v) => [DatumOf(v)]
  }

  // ---- the locked sections ----

  /** A handle is kept only while it is open, unharmed and without timeouts. */
  predicate CanReuse(s: Session) {
    s.live.Some? && s.open && s.timeouts == 0 && !s.tearing && s.unrecognized < UNRECOGNIZED_ID_STORM_LIMIT
  }

  function Disposed(handles: seq<Handle>, live: Option<nat>): seq<Handle> {
    match live
    case Some(h) => if h < |handles| then handles[h := handles[h].(disposed := true)] else handles
    case None => handles
  }

  /** Tear-down and disconnect, inside the lock; failing the pending waiters is owed afterwards. */
  function TearDown(s: Session): Session {
    s.(live := None, open := false, batchCache := map[], singleCache := map[],
       handles := Disposed(s.handles, s.live), timeouts := 0, unrecognized := 0, tearing := false, owed := s.owed + 1)
  }

  /** First section of a connect: drop a handle that cannot be reused. */
  function ConnectDrop(s: Session): Session {
    if CanReuse(s) then s
    else if s.live.None? then s.(connectors := s.connectors + 1)
    else s.(live := None, open := false, batchCache := map[], singleCache := map[],
            handles := Disposed(s.handles, s.live), connectors := s.connectors + 1)
  }

  /** Second section: open a new handle and restart the counters. */
  function ConnectCreate(s: Session): Session {
    if s.connectors == 0 then s
    else if CanReuse(s) then s.(connectors := s.connectors - 1)
    else s.(live := Some(|s.handles|), handles := s.handles + [FRESH],
            nextDef := DYNAMIC_BASE, nextReq := DYNAMIC_BASE, batchCache := map[], singleCache := map[],
            timeouts := 0, unrecognized := 0, tearing := false, connectors := s.connectors - 1)
  }

  /** Or SimConnect refuses. */
  function ConnectFail(s: Session): Session {
    if s.connectors == 0 then s else s.(connectors := s.connectors - 1)
  }

  function Opened(s: Session): Session {
    s.(open := true, timeouts := 0, unrecognized := 0)
  }

  function Unrecognized(s: Session): Session {
    s.(unrecognized := s.unrecognized + 1, tearing := s.tearing || s.unrecognized + 1 >= UNRECOGNIZED_ID_STORM_LIMIT)
  }

  /** A call gets the operation lock. */
  function Enter(s: Session, c: Call): Session {
    if s.op.Idle? then s.(op := Entered(c)) else s
  }

  /** It takes the current handle, or fails when there is none. */
  function Capture(s: Session): Session {
    if !s.op.Entered? then s
    else if s.live.Some? && s.open then s.(op := Captured(s.op.call, s.live.value))
    else s.(op := Idle)
  }

  /** Append data to a definition of a handle. */
  function Register(handles: seq<Handle>, h: nat, def: nat, layout: seq<Datum>): seq<Handle>
    requires h < |handles|
  {
    var known := if def in handles[h].defs then handles[h].defs[def] else [];
    handles[h := handles[h].(defs := handles[h].defs[def := known + layout])]
  }

  function CachedDef(s: Session, c: Call): Option<nat> {
    match c
    case ReadOne(v) =>
      var key := Part(DatumOf(v));
      if key in s.singleCache then Some(s.singleCache[key]) else None
    case ReadMany(vars) =>
      var key := BatchKey(BatchLayout(vars));
      if key in s.batchCache then Some(s.batchCache[key]) else None
    case WriteOne(_) => None
  }

  function Cached(s: Session, c: Call, def: nat): Session {
    match c
    case ReadOne(v) =>
      if |s.singleCache| < MAX_CACHED_SINGLE_DEFS then s.(singleCache := s.singleCache[Part(DatumOf(v)) := def]) else s
    case ReadMany(vars) =>
      if |s.batchCache| < MAX_CACHED_BATCH_DEFS then s.(batchCache := s.batchCache[BatchKey(BatchLayout(vars)) := def]) else s
    case WriteOne(_) => s
  }

  /** Find or register the definition for a call on handle `h`. Calls on a disposed handle
      fail, after the id has been spent. */
  function EnsureDef(s: Session, c: Call, h: nat): (Session, Option<nat>)
    requires h < |s.handles|
  {
    var hit := CachedDef(s, c);
    if hit.Some? then (s, hit)
    else
      var def := s.nextDef;
      var t := s.(nextDef := def + 1);
      if s.handles[h].disposed then (t, None)
      else (Cached(t.(handles := Register(s.handles, h, def, LayoutOf(c))), c, def), Some(def))
  }

  /** A request goes out on a handle. */
  function Requested(h: Handle, r: nat, t: Ticket): Handle {
    h.(asked := h.asked[r := t], used := h.used + {r})
  }

  /** Ask for the data of a definition: a new request id, a new pending entry, the request. */
  function Ask(s: Session, c: Call, h: nat, def: nat): Session
    requires h < |s.handles|
  {
    var r, w := s.nextReq, |s.waiters|;
    var t := s.(nextReq := r + 1, waiters := s.waiters + [Waiter(r, Waiting)], pending := s.pending[r := w]);
    if s.handles[h].disposed then t.(op := Idle)
    else t.(handles := s.handles[h := Requested(s.handles[h], r, Ticket(def, w))], op := Awaiting(c, h, w))
  }

  /** The locked section of a read or a write. */
  function Issue(s: Session): Session {
    if !s.op.Captured? || s.op.handle >= |s.handles| then s
    else
      var c, h := s.op.call, s.op.handle;
      var e := EnsureDef(s, c, h);
      match e.1
      case None => e.0.(op := Idle)
      case Some(def) => if c.WriteOne? then e.0.(op := Idle) else Ask(e.0, c, h, def)
  }

  /** Snapshot and identity requests use fixed ids and do not take the operation lock. */
  function AskFixed(s: Session, id: nat): Session {
    if !(1 <= id <= 2) || s.live.None? || !s.open || s.live.value >= |s.handles| then s
    else
      var h, w := s.live.value, |s.waiters|;
      s.(waiters := s.waiters + [Waiter(id, Waiting)], pending := s.pending[id := w],
         handles := s.handles[h := Requested(s.handles[h], id, Ticket(id, w))])
  }

  /** Complete a waiter; only the first completion counts. */
  function Resolved(waiters: seq<Waiter>, w: nat, v: Verdict): seq<Waiter> {
    if w < |waiters| && waiters[w].verdict.Waiting? then waiters[w := waiters[w].(verdict := v)] else waiters
  }

  /** What the simulator sends for a ticket. */
  function PayloadOf(h: Handle, t: Ticket, sample: Sample): Payload {
    if t.def !in h.defs then Other
    else if |h.defs[t.def]| == 1 then Single(sample(h.defs[t.def][0]))
    else Batch(Reply(h.defs[t.def], sample))
  }

  /** Data for an outstanding request of the most recent handle. */
  function Deliver(s: Session, r: nat, sample: Sample): Session {
    if s.handles == [] || r !in s.handles[|s.handles| - 1].asked then s
    else
      var n := |s.handles| - 1;
      var h := s.handles[n];
      var t := s.(handles := s.handles[n := h.(asked := h.asked - {r})], timeouts := 0, unrecognized := 0);
      if r !in s.pending then t
      else t.(pending := s.pending - {r}, waiters := Resolved(s.waiters, s.pending[r], PayloadOfVerdict(h, r, sample)))
  }

  function PayloadOfVerdict(h: Handle, r: nat, sample: Sample): Verdict
    requires r in h.asked
  {
    Got(PayloadOf(h, h.asked[r], sample))
  }

  /** A waiter runs out of time, or its caller gives up; in both cases it fails. */
  function Expire(s: Session, w: nat): Session {
    s.(waiters := Resolved(s.waiters, w, TimedOut))
  }

  /** The caller of an expired waiter counts it; the third in a row tears the session down. */
  function NoteTimeout(s: Session): Session {
    var t := s.(timeouts := s.timeouts + 1);
    if t.timeouts >= TIMEOUT_STORM_LIMIT then TearDown(t) else t
  }

  function DropAll(waiters: seq<Waiter>, drop: set<nat>): seq<Waiter> {
    seq(|waiters|, i requires 0 <= i < |waiters| =>
      if i in drop && waiters[i].verdict.Waiting? then waiters[i].(verdict := Dropped) else waiters[i])
  }

  /** What a tear-down owes: fail every pending waiter ... */
  function FailPending(s: Session): Session {
    if s.owed == 0 then s else s.(waiters := DropAll(s.waiters, s.pending.Values))
  }

  /** ... and then empty the table. The two are separate steps. */
  function ClearPending(s: Session): Session {
    if s.owed == 0 then s else s.(pending := map[], owed := s.owed - 1)
  }

  /** The waiting call sees its verdict and leaves the operation lock. */
  function Return(s: Session): Session {
    if s.op.Awaiting? && s.op.waiter < |s.waiters| && !s.waiters[s.op.waiter].verdict.Waiting? then s.(op := Idle) else s
  }

  datatype Event =
    | EConnectDrop | EConnectCreate | EConnectFail | EOpened | EUnrecognized | ETearDown
    | EEnter(call: Call) | ECapture | EIssue | EAskFixed(id: nat)
    | EDeliver(request: nat, sample: Sample) | EExpire(waiter: nat) | ENoteTimeout
    | EFailPending | EClearPending | EReturn

  function Apply(s: Session, e: Event): Session {
    match e
    case EConnectDrop => ConnectDrop(s)
    case EConnectCreate => ConnectCreate(s)
    case EConnectFail => ConnectFail(s)
    case EOpened => Opened(s)
    case EUnrecognized => Unrecognized(s)
    case ETearDown => TearDown(s)
    case EEnter(c) => Enter(s, c)
    case ECapture => Capture(s)
    case EIssue => Issue(s)
    case EAskFixed(id) => AskFixed(s, id)
    case EDeliver(r, sample) => Deliver(s, r, sample)
    case EExpire(w) => Expire(s, w)
    case ENoteTimeout => NoteTimeout(s)
    case EFailPending => FailPending(s)
    case EClearPending => ClearPending(s)
    case EReturn => Return(s)
  }

  function Run(s: Session, events: seq<Event>): Session
    decreases events
  {
    if events == [] then s else Run(Apply(s, events[0]), events[1..])
  }
}

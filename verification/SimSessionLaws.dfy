/** What every run of the session keeps: cached definitions are exact, ids are not reused, and
    each dynamic request owns its answer. */
module {:induction false} SimSessionLaws {
  import opened Options
  import opened SimReads
  import opened SimSession

  // ---- the invariant ----

  predicate CallOk(c: Call) {
    match c
    case ReadOne(v) => Free(v.name, '\t')
    case ReadMany(vars) => 1 <= |vars| <= 32 && forall v <- vars :: CleanVar(v)
    case WriteOne(_) => true
  }

  predicate NothingCached(s: Session) {
    s.batchCache == map[] && s.singleCache == map[]
  }

  /** At most the newest handle is live, all others are disposed, and caches need a live handle. */
  predicate HandlesOk(s: Session) {
    && (s.live.Some? ==> s.live.value == |s.handles| - 1 && !s.handles[s.live.value].disposed)
    && (forall k | 0 <= k < |s.handles| :: s.live != Some(k) ==> s.handles[k].disposed)
    && (s.live.None? ==> NothingCached(s))
  }

  function Newest(s: Session): Handle {
    if s.handles == [] then FRESH else s.handles[|s.handles| - 1]
  }

  predicate DefFits(h: Handle, d: nat, nextDef: nat)
    requires d in h.defs
  {
    DYNAMIC_BASE <= d < nextDef
  }

  predicate BatchExact(h: Handle, k: string, d: nat) {
    d in h.defs && BatchSize(|h.defs[d]|) && CleanLayout(h.defs[d]) && BatchKey(h.defs[d]) == k
  }

  predicate SingleExact(h: Handle, k: string, d: nat) {
    d in h.defs && |h.defs[d]| == 1 && TabFree(h.defs[d][0]) && Part(h.defs[d][0]) == k
  }

  /** Every cached id is registered on the newest handle with the layout its key spells. */
  predicate DefsOk(s: Session) {
    var h := Newest(s);
    && DYNAMIC_BASE <= s.nextDef
    && (forall d | d in h.defs :: DefFits(h, d, s.nextDef))
    && (forall k | k in s.batchCache :: BatchExact(h, k, s.batchCache[k]))
    && (forall k | k in s.singleCache :: SingleExact(h, k, s.singleCache[k]))
  }

  /** The outstanding request of the call that waits. */
  predicate TicketOk(h: Handle, r: nat, w: nat, c: Call) {
    r in h.asked ==>
      && h.asked[r].waiter == w
      && h.asked[r].def in h.defs
      && h.defs[h.asked[r].def] == LayoutOf(c)
  }

  predicate OpOk(s: Session) {
    match s.op
    case Idle => true
    case Entered(c) => CallOk(c)
    case Captured(c, h) => CallOk(c) && h < |s.handles| && (s.live != Some(h) ==> NothingCached(s))
    case Awaiting(c, h, w) =>
      && CallOk(c) && !c.WriteOne? && h < |s.handles| && w < |s.waiters|
      && DYNAMIC_BASE <= s.waiters[w].request
      && (if h == |s.handles| - 1 then TicketOk(Newest(s), s.waiters[w].request, w, c)
          else forall r | r in Newest(s).asked :: r < DYNAMIC_BASE)
  }

  predicate EntryOk(s: Session, r: nat)
    requires r in s.pending
  {
    s.pending[r] < |s.waiters| && s.waiters[s.pending[r]].request == r
  }

  predicate IsAwaited(s: Session, w: nat) {
    s.op.Awaiting? && s.op.waiter == w
  }

  /** Entries name their own waiters, asked ids are below the counter, and the only dynamic
      waiter still waiting belongs to the call inside the operation lock. */
  predicate PendingOk(s: Session) {
    && DYNAMIC_BASE <= s.nextReq
    && (forall r | r in s.pending :: EntryOk(s, r))
    && (forall r | r in Newest(s).asked :: r in Newest(s).used)
    && (forall r | r in Newest(s).used :: r < s.nextReq)
    && (forall w | 0 <= w < |s.waiters| ::
          s.waiters[w].verdict.Waiting? && DYNAMIC_BASE <= s.waiters[w].request ==> IsAwaited(s, w))
  }

  predicate Inv(s: Session) {
    HandlesOk(s) && DefsOk(s) && OpOk(s) && PendingOk(s)
  }

  lemma StartIsInv()
    ensures Inv(START)
  {
  }

  // ---- parts that survive a step ----

  /** Definitions only depend on the newest handle's definitions. */
  lemma DefsSurvive(s: Session, t: Session)
    requires DefsOk(s) && Newest(t).defs == Newest(s).defs && s.nextDef <= t.nextDef
    requires t.batchCache == s.batchCache && t.singleCache == s.singleCache
    ensures DefsOk(t)
  {
    var h, g := Newest(s), Newest(t);
    forall d | d in g.defs ensures DefFits(g, d, t.nextDef) {
      assert DefFits(h, d, s.nextDef);
    }
    forall k | k in s.batchCache ensures BatchExact(g, k, s.batchCache[k]) {
      assert BatchExact(h, k, s.batchCache[k]);
    }
    forall k | k in s.singleCache ensures SingleExact(g, k, s.singleCache[k]) {
      assert SingleExact(h, k, s.singleCache[k]);
    }
  }

  /** Completing waiters, removing entries and requests, and leaving the wait of a completed one. */
  lemma PendingSurvives(s: Session, t: Session)
    requires PendingOk(s) && t.nextReq == s.nextReq && |t.waiters| == |s.waiters|
    requires forall w | 0 <= w < |s.waiters| ::
      t.waiters[w].request == s.waiters[w].request && (t.waiters[w].verdict.Waiting? ==> s.waiters[w].verdict.Waiting?)
    requires forall r | r in t.pending :: r in s.pending && t.pending[r] == s.pending[r]
    requires Newest(t).asked.Keys <= Newest(s).asked.Keys && Newest(t).used == Newest(s).used
    requires s.op.Awaiting? ==> t.op == s.op || (s.op.waiter < |t.waiters| && !t.waiters[s.op.waiter].verdict.Waiting?)
    ensures PendingOk(t)
  {
    forall r | r in t.pending ensures EntryOk(t, r) {
      assert EntryOk(s, r);
    }
    forall r | r in Newest(t).asked ensures r in Newest(t).used {
      assert r in Newest(s).asked.Keys;
    }
    forall w | 0 <= w < |t.waiters| && t.waiters[w].verdict.Waiting? && DYNAMIC_BASE <= t.waiters[w].request
      ensures IsAwaited(t, w)
    {
      assert IsAwaited(s, w);
    }
  }

  /** A step that only moves the call inside the operation lock. */
  lemma OpKeeps(s: Session, t: Session)
    requires Inv(s) && t == s.(op := t.op) && OpOk(t)
    requires s.op.Awaiting? ==> s.op.waiter < |s.waiters| && !s.waiters[s.op.waiter].verdict.Waiting?
    ensures Inv(t)
  {
    DefsSurvive(s, t);
    PendingSurvives(s, t);
  }

  // ---- steps keep it ----

  /** What a run may do: any number of connects, as long as none opens a handle over one that another
      connect opened meanwhile and that cannot be reused; and calls with readable names. */
  predicate Orderly(s: Session, e: Event) {
    (e.EConnectCreate? ==> s.connectors == 0 || s.live.None? || CanReuse(s)) && (e.EEnter? ==> CallOk(e.call))
  }

  /** Dropping the live handle, whatever the counters and health flags become. */
  lemma DropKeeps(s: Session, t: Session)
    requires Inv(s)
    requires t == s.(live := None, open := t.open, batchCache := map[], singleCache := map[],
                     handles := Disposed(s.handles, s.live), connectors := t.connectors,
                     timeouts := t.timeouts, unrecognized := t.unrecognized, tearing := t.tearing, owed := t.owed)
    ensures Inv(t)
  {
    assert Newest(t).defs == Newest(s).defs && Newest(t).asked == Newest(s).asked;
    DropDefs(s, t);
    PendingSurvives(s, t);
  }

  lemma DropDefs(s: Session, t: Session)
    requires DefsOk(s) && Newest(t).defs == Newest(s).defs && t.nextDef == s.nextDef && NothingCached(t)
    ensures DefsOk(t)
  {
    forall d | d in Newest(t).defs ensures DefFits(Newest(t), d, t.nextDef) {
      assert DefFits(Newest(s), d, s.nextDef);
    }
  }

  lemma CreateKeeps(s: Session)
    requires Inv(s) && Orderly(s, EConnectCreate)
    ensures Inv(ConnectCreate(s))
  {
    var t := ConnectCreate(s);
    if s.connectors > 0 && CanReuse(s) {
      ConnectorsKeep(s, t);
    } else if s.connectors > 0 {
      assert Newest(t) == FRESH;
    }
  }

  lemma CaptureKeeps(s: Session)
    requires Inv(s)
    ensures Inv(Capture(s))
  {
    if s.op.Entered? {
      OpKeeps(s, Capture(s));
    }
  }

  lemma EnterKeeps(s: Session, c: Call)
    requires Inv(s) && CallOk(c)
    ensures Inv(Enter(s, c))
  {
    if s.op.Idle? {
      OpKeeps(s, Enter(s, c));
    }
  }

  lemma LayoutClean(c: Call)
    requires CallOk(c)
    ensures c.ReadMany? ==> BatchSize(|LayoutOf(c)|) && CleanLayout(LayoutOf(c))
    ensures !c.ReadMany? ==> |LayoutOf(c)| == 1
    ensures c.ReadOne? ==> TabFree(LayoutOf(c)[0])
  {
    if c.ReadMany? {
      var vars := c.vars;
      var layout := BatchLayout(vars);
      forall i | 0 <= i < |layout| ensures CleanDatum(layout[i]) {
        if i < |vars| {
          assert vars[i] in vars;
          CleanIsClean(vars[i]);
        }
      }
    }
  }

  /** A hit is registered with exactly the layout of the call. */
  lemma HitIsExact(s: Session, c: Call)
    requires DefsOk(s) && CallOk(c) && CachedDef(s, c).Some?
    ensures CachedDef(s, c).value in Newest(s).defs && Newest(s).defs[CachedDef(s, c).value] == LayoutOf(c)
  {
    var d := CachedDef(s, c).value;
    var h := Newest(s);
    LayoutClean(c);
    match c
    case ReadOne(v) =>
      var k := Part(DatumOf(v));
      assert SingleExact(h, k, d);
      assert h.defs[d] == [h.defs[d][0]];
      PartSpells(h.defs[d][0], DatumOf(v));
    case ReadMany(vars) =>
      assert BatchExact(h, BatchKey(BatchLayout(vars)), d);
      KeySpells(h.defs[d], BatchLayout(vars));
    case WriteOne(_) =>
  }

  /** The id about to be used is unknown to the newest handle, both as definition and request. */
  lemma IdsAreFresh(s: Session)
    requires DefsOk(s) && PendingOk(s)
    ensures s.nextDef !in Newest(s).defs && s.nextReq !in Newest(s).used && s.nextReq !in Newest(s).asked
  {
    assert s.nextDef in Newest(s).defs ==> DefFits(Newest(s), s.nextDef, s.nextDef);
  }

  lemma SpendKeeps(s: Session)
    requires Inv(s)
    ensures Inv(s.(nextDef := s.nextDef + 1))
  {
    var t := s.(nextDef := s.nextDef + 1);
    DefsSurvive(s, t);
    PendingSurvives(s, t);
  }

  /** What a miss on the live handle leaves behind. */
  lemma MissLeaves(s: Session, c: Call, h: nat)
    requires h < |s.handles| && !s.handles[h].disposed && CachedDef(s, c).None? && s.nextDef !in s.handles[h].defs
    ensures var g := s.handles[h];
            EnsureDef(s, c, h)
            == (s.(nextDef := s.nextDef + 1,
                   handles := s.handles[h := g.(defs := g.defs[s.nextDef := LayoutOf(c)])],
                   batchCache := Cached(s, c, s.nextDef).batchCache, singleCache := Cached(s, c, s.nextDef).singleCache),
                Some(s.nextDef))
  {
    assert [] + LayoutOf(c) == LayoutOf(c);
  }

  lemma MissDefs(s: Session, c: Call, t: Session)
    requires DefsOk(s) && CallOk(c) && s.nextDef !in Newest(s).defs
    requires Newest(t).defs == Newest(s).defs[s.nextDef := LayoutOf(c)] && t.nextDef == s.nextDef + 1
    requires t.batchCache == Cached(s, c, s.nextDef).batchCache && t.singleCache == Cached(s, c, s.nextDef).singleCache
    ensures DefsOk(t)
  {
    var h, g := Newest(s), Newest(t);
    LayoutClean(c);
    forall x | x in g.defs ensures DefFits(g, x, t.nextDef) {
      assert x in h.defs ==> DefFits(h, x, s.nextDef);
    }
    forall k | k in t.batchCache ensures BatchExact(g, k, t.batchCache[k]) {
      BatchesExact(s, c, k);
    }
    forall k | k in t.singleCache ensures SingleExact(g, k, t.singleCache[k]) {
      SinglesExact(s, c, k);
    }
  }

  lemma BatchEntry(s: Session, key: string, layout: seq<Datum>, k: string)
    requires DefsOk(s) && s.nextDef !in Newest(s).defs
    requires BatchSize(|layout|) && CleanLayout(layout) && BatchKey(layout) == key
    ensures var g := Newest(s).(defs := Newest(s).defs[s.nextDef := layout]);
            && (k in s.batchCache ==> BatchExact(g, k, s.batchCache[k]))
            && BatchExact(g, key, s.nextDef)
  {
    if k in s.batchCache {
      assert BatchExact(Newest(s), k, s.batchCache[k]);
    }
  }

  lemma BatchesExact(s: Session, c: Call, k: string)
    requires DefsOk(s) && CallOk(c) && s.nextDef !in Newest(s).defs
    requires k in Cached(s, c, s.nextDef).batchCache
    ensures var h := Newest(s);
            BatchExact(h.(defs := h.defs[s.nextDef := LayoutOf(c)]), k, Cached(s, c, s.nextDef).batchCache[k])
  {
    LayoutClean(c);
    CachedBatches(s, c);
    if c.ReadMany? {
      BatchEntry(s, BatchKey(LayoutOf(c)), LayoutOf(c), k);
    } else {
      assert BatchExact(Newest(s), k, s.batchCache[k]);
    }
  }

  /** Only a batch read adds a batch entry, and that one only. */
  lemma CachedBatches(s: Session, c: Call)
    ensures var cached := Cached(s, c, s.nextDef).batchCache;
            cached == s.batchCache || (c.ReadMany? && cached == s.batchCache[BatchKey(LayoutOf(c)) := s.nextDef])
  {
  }

  lemma SingleEntry(s: Session, datum: Datum, layout: seq<Datum>, k: string)
    requires DefsOk(s) && s.nextDef !in Newest(s).defs && TabFree(datum) && layout == [datum]
    ensures var g := Newest(s).(defs := Newest(s).defs[s.nextDef := layout]);
            && (k in s.singleCache ==> SingleExact(g, k, s.singleCache[k]))
            && SingleExact(g, Part(datum), s.nextDef)
  {
    if k in s.singleCache {
      assert SingleExact(Newest(s), k, s.singleCache[k]);
    }
  }

  lemma SinglesExact(s: Session, c: Call, k: string)
    requires DefsOk(s) && CallOk(c) && s.nextDef !in Newest(s).defs
    requires k in Cached(s, c, s.nextDef).singleCache
    ensures var h := Newest(s);
            SingleExact(h.(defs := h.defs[s.nextDef := LayoutOf(c)]), k, Cached(s, c, s.nextDef).singleCache[k])
  {
    LayoutClean(c);
    var cached := Cached(s, c, s.nextDef);
    if c.ReadOne? {
      assert cached.singleCache == s.singleCache || cached.singleCache == s.singleCache[Part(LayoutOf(c)[0]) := s.nextDef];
      SingleEntry(s, LayoutOf(c)[0], LayoutOf(c), k);
    } else {
      assert cached.singleCache == s.singleCache;
      assert SingleExact(Newest(s), k, s.singleCache[k]);
    }
  }

  lemma RegisteredKeeps(s: Session, c: Call, t: Session)
    requires Inv(s) && CallOk(c) && s.live.Some? && s.op == Captured(c, s.live.value) && s.nextDef !in Newest(s).defs
    requires var h := s.handles[s.live.value];
             t == s.(nextDef := s.nextDef + 1,
                     handles := s.handles[s.live.value := h.(defs := h.defs[s.nextDef := LayoutOf(c)])],
                     batchCache := Cached(s, c, s.nextDef).batchCache, singleCache := Cached(s, c, s.nextDef).singleCache)
    ensures Inv(t) && s.nextDef in Newest(t).defs && Newest(t).defs[s.nextDef] == LayoutOf(c)
  {
    assert Newest(t) == Newest(s).(defs := Newest(s).defs[s.nextDef := LayoutOf(c)]);
    assert DefsOk(t) by {
      MissDefs(s, c, t);
    }
    assert PendingOk(t) by {
      PendingSurvives(s, t);
    }
    forall k | 0 <= k < |t.handles| && t.live != Some(k) ensures t.handles[k].disposed {
      assert s.handles[k].disposed;
    }
  }

  /** A miss on the live handle registers the layout of the call and caches only that. */
  lemma MissKeeps(s: Session, c: Call)
    requires Inv(s) && CallOk(c) && s.live.Some? && s.op == Captured(c, s.live.value) && CachedDef(s, c).None?
    ensures var e := EnsureDef(s, c, s.live.value);
            Inv(e.0) && e.1 == Some(s.nextDef) && s.nextDef in Newest(e.0).defs && Newest(e.0).defs[s.nextDef] == LayoutOf(c)
  {
    var t := EnsureDef(s, c, s.live.value).0;
    IdsAreFresh(s);
    MissLeaves(s, c, s.live.value);
    RegisteredKeeps(s, c, t);
  }

  /** Asking on the live handle: the new request is the caller's own. */
  lemma AskKeeps(s: Session, c: Call, def: nat)
    requires Inv(s) && CallOk(c) && !c.WriteOne? && s.live.Some? && s.op.Captured?
    requires def in Newest(s).defs && Newest(s).defs[def] == LayoutOf(c)
    ensures Inv(Ask(s, c, s.live.value, def))
  {
    var t := Ask(s, c, s.live.value, def);
    var h, g := Newest(s), Newest(t);
    assert g == Requested(h, s.nextReq, Ticket(def, |s.waiters|));
    DefsSurvive(s, t);
    AskPending(s, t);
  }

  lemma AskPending(s: Session, t: Session)
    requires PendingOk(s) && s.op.Captured?
    requires t.nextReq == s.nextReq + 1 && t.waiters == s.waiters + [Waiter(s.nextReq, Waiting)]
    requires t.pending == s.pending[s.nextReq := |s.waiters|] && IsAwaited(t, |s.waiters|)
    requires forall r | r in Newest(t).asked :: r in Newest(s).asked || r == s.nextReq
    requires Newest(t).used == Newest(s).used + {s.nextReq}
    ensures PendingOk(t)
  {
    forall r | r in t.pending ensures EntryOk(t, r) {
      assert r != s.nextReq ==> EntryOk(s, r);
    }
    forall w | 0 <= w < |t.waiters| && t.waiters[w].verdict.Waiting? && DYNAMIC_BASE <= t.waiters[w].request
      ensures IsAwaited(t, w)
    {
      assert w < |s.waiters| ==> !IsAwaited(s, w);
    }
  }

  lemma IdleKeeps(s: Session)
    requires Inv(s) && !s.op.Awaiting?
    ensures Inv(s.(op := Idle))
  {
    OpKeeps(s, s.(op := Idle));
  }

  /** The definition used for a call on the live handle has exactly the layout of the call. */
  lemma EnsureKeeps(s: Session, c: Call)
    requires Inv(s) && CallOk(c) && s.live.Some? && s.op == Captured(c, s.live.value)
    ensures var e := EnsureDef(s, c, s.live.value);
            && Inv(e.0) && e.0.live == s.live && e.0.op == s.op
            && e.1.Some? && e.1.value in Newest(e.0).defs && Newest(e.0).defs[e.1.value] == LayoutOf(c)
  {
    if CachedDef(s, c).Some? {
      HitIsExact(s, c);
    } else {
      MissKeeps(s, c);
      MissFrame(s, c, s.live.value);
    }
  }

  lemma MissFrame(s: Session, c: Call, h: nat)
    requires h < |s.handles|
    ensures var e := EnsureDef(s, c, h);
            e.0.live == s.live && e.0.op == s.op
  {
  }

  /** A call whose handle is no longer live finds nothing cached and fails. */
  lemma StaleFails(s: Session)
    requires Inv(s) && s.op.Captured? && s.live != Some(s.op.handle)
    ensures Issue(s) == s.(nextDef := s.nextDef + 1, op := Idle)
  {
    assert CachedDef(s, s.op.call).None?;
    assert s.handles[s.op.handle].disposed;
  }

  lemma StaleIssueKeeps(s: Session)
    requires Inv(s) && s.op.Captured? && s.live != Some(s.op.handle)
    ensures Inv(Issue(s))
  {
    StaleFails(s);
    SpendKeeps(s);
    IdleKeeps(s.(nextDef := s.nextDef + 1));
  }

  lemma LiveIssueKeeps(s: Session, e: Session, def: nat)
    requires Inv(s) && s.op.Captured? && s.live == Some(s.op.handle)
    requires (e, Some(def)) == EnsureDef(s, s.op.call, s.op.handle) && Inv(e) && e.live == s.live && e.op == s.op
    requires def in Newest(e).defs && Newest(e).defs[def] == LayoutOf(s.op.call)
    ensures Inv(Issue(s))
  {
    if s.op.call.WriteOne? {
      IdleKeeps(e);
    } else {
      AskKeeps(e, s.op.call, def);
    }
  }

  lemma IssueKeeps(s: Session)
    requires Inv(s)
    ensures Inv(Issue(s))
  {
    if s.op.Captured? {
      if s.live == Some(s.op.handle) {
        EnsureKeeps(s, s.op.call);
        var e := EnsureDef(s, s.op.call, s.op.handle);
        LiveIssueKeeps(s, e.0, e.1.value);
      } else {
        StaleIssueKeeps(s);
      }
    }
  }

  lemma AskFixedKeeps(s: Session, id: nat)
    requires Inv(s)
    ensures Inv(AskFixed(s, id))
  {
    var t := AskFixed(s, id);
    if t != s {
      var h, g := Newest(s), Newest(t);
      assert g == Requested(h, id, Ticket(id, |s.waiters|));
      DefsSurvive(s, t);
      FixedPending(s, t, id);
    }
  }

  lemma FixedPending(s: Session, t: Session, id: nat)
    requires PendingOk(s) && 1 <= id <= 2 && t.op == s.op && t.nextReq == s.nextReq
    requires t.waiters == s.waiters + [Waiter(id, Waiting)] && t.pending == s.pending[id := |s.waiters|]
    requires forall r | r in Newest(t).asked :: r in Newest(s).asked || r == id
    requires Newest(t).used == Newest(s).used + {id}
    ensures PendingOk(t)
  {
    forall r | r in t.pending ensures EntryOk(t, r) {
      assert r != id ==> EntryOk(s, r);
    }
    forall w | 0 <= w < |t.waiters| && t.waiters[w].verdict.Waiting? && DYNAMIC_BASE <= t.waiters[w].request
      ensures IsAwaited(t, w)
    {
      assert w < |s.waiters| && IsAwaited(s, w);
    }
  }

  /** Completing waiters and emptying the table, in any combination. */
  lemma SettleKeeps(s: Session, t: Session)
    requires Inv(s)
    requires t == s.(waiters := t.waiters, pending := t.pending, timeouts := t.timeouts, unrecognized := t.unrecognized, owed := t.owed)
    requires |t.waiters| == |s.waiters|
    requires forall w | 0 <= w < |s.waiters| ::
      t.waiters[w].request == s.waiters[w].request && (t.waiters[w].verdict.Waiting? ==> s.waiters[w].verdict.Waiting?)
    requires forall r | r in t.pending :: r in s.pending && t.pending[r] == s.pending[r]
    ensures Inv(t)
  {
    DefsSurvive(s, t);
    PendingSurvives(s, t);
  }

  /** Forgetting an outstanding request of the newest handle. */
  lemma AnswerKeeps(s: Session, r: nat)
    requires Inv(s) && s.handles != []
    ensures var n := |s.handles| - 1;
            Inv(s.(handles := s.handles[n := s.handles[n].(asked := s.handles[n].asked - {r})]))
  {
    var n := |s.handles| - 1;
    var t := s.(handles := s.handles[n := s.handles[n].(asked := s.handles[n].asked - {r})]);
    assert Newest(t).defs == Newest(s).defs && Newest(t).asked == Newest(s).asked - {r};
    DefsSurvive(s, t);
    PendingSurvives(s, t);
  }

  /** ... and then completing the waiter its entry names. */
  lemma AnsweredKeeps(s: Session, r: nat, sample: Sample)
    requires s.handles != [] && r in Newest(s).asked
    requires var n := |s.handles| - 1;
             Inv(s.(handles := s.handles[n := s.handles[n].(asked := s.handles[n].asked - {r})]))
    ensures Inv(Deliver(s, r, sample))
  {
    var n := |s.handles| - 1;
    SettleKeeps(s.(handles := s.handles[n := s.handles[n].(asked := s.handles[n].asked - {r})]), Deliver(s, r, sample));
  }

  lemma DeliverKeeps(s: Session, r: nat, sample: Sample)
    requires Inv(s)
    ensures Inv(Deliver(s, r, sample))
  {
    if s.handles != [] && r in Newest(s).asked {
      AnswerKeeps(s, r);
      AnsweredKeeps(s, r, sample);
    }
  }

  /** Steps of connects, of the receive loop's health tracking and of tear-downs. */
  predicate SessionEvent(e: Event) {
    e.EConnectDrop? || e.EConnectCreate? || e.EConnectFail? || e.EOpened? || e.EUnrecognized? || e.ETearDown? || e.ENoteTimeout?
  }

  lemma SessionStepKeeps(s: Session, e: Event)
    requires Inv(s) && Orderly(s, e) && SessionEvent(e)
    ensures Inv(Apply(s, e))
  {
    match e
    case EConnectDrop => ConnectDropKeeps(s);
    case EConnectCreate => CreateKeeps(s);
    case EConnectFail => ConnectorsKeep(s, ConnectFail(s));
    case EOpened => HealthKeeps(s, Opened(s));
    case EUnrecognized => HealthKeeps(s, Unrecognized(s));
    case ETearDown => DropKeeps(s, TearDown(s));
    case ENoteTimeout => NoteTimeoutKeeps(s);
  }

  lemma ExpireKeeps(s: Session, w: nat)
    requires Inv(s)
    ensures Inv(Expire(s, w))
  {
    SettleKeeps(s, Expire(s, w));
  }

  lemma FailPendingKeeps(s: Session)
    requires Inv(s)
    ensures Inv(FailPending(s))
  {
    SettleKeeps(s, FailPending(s));
  }

  lemma ClearPendingKeeps(s: Session)
    requires Inv(s)
    ensures Inv(ClearPending(s))
  {
    SettleKeeps(s, ClearPending(s));
  }

  lemma RequestStepKeeps(s: Session, e: Event)
    requires Inv(s) && Orderly(s, e) && !SessionEvent(e)
    ensures Inv(Apply(s, e))
  {
    match e
    case EEnter(c) => EnterKeeps(s, c);
    case ECapture => CaptureKeeps(s);
    case EIssue => IssueKeeps(s);
    case EAskFixed(id) => AskFixedKeeps(s, id);
    case EDeliver(r, sample) => DeliverKeeps(s, r, sample);
    case EExpire(w) => ExpireKeeps(s, w);
    case EFailPending => FailPendingKeeps(s);
    case EClearPending => ClearPendingKeeps(s);
    case EReturn => ReturnKeeps(s);
  }

  /** Every step of every party keeps the invariant. */
  lemma StepKeeps(s: Session, e: Event)
    requires Inv(s) && Orderly(s, e)
    ensures Inv(Apply(s, e))
  {
    if SessionEvent(e) {
      SessionStepKeeps(s, e);
    } else {
      RequestStepKeeps(s, e);
    }
  }

  lemma HealthKeeps(s: Session, t: Session)
    requires Inv(s) && t == s.(open := t.open, timeouts := t.timeouts, unrecognized := t.unrecognized, tearing := t.tearing)
    ensures Inv(t)
  {
    DefsSurvive(s, t);
    PendingSurvives(s, t);
  }

  lemma ConnectorsKeep(s: Session, t: Session)
    requires Inv(s) && t == s.(connectors := t.connectors)
    ensures Inv(t)
  {
    DefsSurvive(s, t);
    PendingSurvives(s, t);
  }

  lemma ConnectDropKeeps(s: Session)
    requires Inv(s)
    ensures Inv(ConnectDrop(s))
  {
    if !CanReuse(s) {
      if s.live.None? {
        assert Disposed(s.handles, s.live) == s.handles;
      }
      DropKeeps(s, ConnectDrop(s));
    }
  }

  lemma NoteTimeoutKeeps(s: Session)
    requires Inv(s)
    ensures Inv(NoteTimeout(s))
  {
    if s.timeouts + 1 >= TIMEOUT_STORM_LIMIT {
      DropKeeps(s, NoteTimeout(s));
    } else {
      HealthKeeps(s, NoteTimeout(s));
    }
  }

  lemma ReturnKeeps(s: Session)
    requires Inv(s)
    ensures Inv(Return(s))
  {
    if Return(s) != s {
      OpKeeps(s, Return(s));
    }
  }

  // ---- runs ----

  predicate OrderlyRun(s: Session, events: seq<Event>)
    decreases events
  {
    events == [] || (Orderly(s, events[0]) && OrderlyRun(Apply(s, events[0]), events[1..]))
  }

  lemma RunKeeps(s: Session, events: seq<Event>)
    requires Inv(s) && OrderlyRun(s, events)
    ensures Inv(Run(s, events))
    decreases events
  {
    if events != [] {
      StepKeeps(s, events[0]);
      RunKeeps(Apply(s, events[0]), events[1..]);
    }
  }

  // ---- what holds in every orderly run ----

  lemma RunIsInv(events: seq<Event>)
    requires OrderlyRun(START, events)
    ensures Inv(Run(START, events))
  {
    StartIsInv();
    RunKeeps(START, events);
  }

  /** A cached batch id is registered on the live handle, with exactly the layout its key spells. */
  lemma CachedBatchIsExact(events: seq<Event>, layout: seq<Datum>)
    requires OrderlyRun(START, events) && CleanLayout(layout) && BatchSize(|layout|)
    requires BatchKey(layout) in Run(START, events).batchCache
    ensures var s := Run(START, events);
            var d := s.batchCache[BatchKey(layout)];
            && s.live.Some? && s.live.value < |s.handles| && !s.handles[s.live.value].disposed
            && d in s.handles[s.live.value].defs && s.handles[s.live.value].defs[d] == layout
  {
    RunIsInv(events);
    var s := Run(START, events);
    var d := s.batchCache[BatchKey(layout)];
    assert BatchExact(Newest(s), BatchKey(layout), d);
    KeySpells(Newest(s).defs[d], layout);
  }

  /** The same for a cached one-variable id. */
  lemma CachedSingleIsExact(events: seq<Event>, datum: Datum)
    requires OrderlyRun(START, events) && TabFree(datum)
    requires Part(datum) in Run(START, events).singleCache
    ensures var s := Run(START, events);
            var d := s.singleCache[Part(datum)];
            && s.live.Some? && s.live.value < |s.handles| && !s.handles[s.live.value].disposed
            && d in s.handles[s.live.value].defs && s.handles[s.live.value].defs[d] == [datum]
  {
    RunIsInv(events);
    var s := Run(START, events);
    var d := s.singleCache[Part(datum)];
    var layout := Newest(s).defs[d];
    assert SingleExact(Newest(s), Part(datum), d);
    PartSpells(layout[0], datum);
  }

  /** Counters restart with every handle, but on one handle no id is used twice. */
  lemma NoIdIsReused(events: seq<Event>)
    requires OrderlyRun(START, events)
    ensures var s := Run(START, events);
            s.live.Some? ==>
              && s.live.value < |s.handles|
              && s.nextDef !in s.handles[s.live.value].defs
              && s.nextReq !in s.handles[s.live.value].used
  {
    RunIsInv(events);
    IdsAreFresh(Run(START, events));
  }

  /** A new pending entry never replaces one whose dynamic waiter still waits. */
  lemma NoWaiterIsOverwritten(events: seq<Event>, r: nat)
    requires OrderlyRun(START, events) && Run(START, events).op.Captured?
    requires DYNAMIC_BASE <= r && r in Run(START, events).pending
    ensures var s := Run(START, events);
            s.pending[r] < |s.waiters| && !s.waiters[s.pending[r]].verdict.Waiting?
  {
    RunIsInv(events);
    var s := Run(START, events);
    assert EntryOk(s, r) && !IsAwaited(s, s.pending[r]);
  }

  predicate CachesSmall(s: Session) {
    |s.batchCache| <= MAX_CACHED_BATCH_DEFS && |s.singleCache| <= MAX_CACHED_SINGLE_DEFS
  }

  lemma CachedStaysSmall(s: Session, c: Call, def: nat)
    requires CachesSmall(s)
    ensures CachesSmall(Cached(s, c, def))
  {
    match c
    case ReadOne(v) =>
      assert |s.singleCache[Part(DatumOf(v)) := def]| <= |s.singleCache| + 1;
    case ReadMany(vars) =>
      assert |s.batchCache[BatchKey(BatchLayout(vars)) := def]| <= |s.batchCache| + 1;
    case WriteOne(_) =>
  }

  lemma EnsureStaysSmall(s: Session, c: Call, h: nat)
    requires CachesSmall(s) && h < |s.handles|
    ensures CachesSmall(EnsureDef(s, c, h).0)
  {
    if CachedDef(s, c).None? && !s.handles[h].disposed {
      var t := s.(nextDef := s.nextDef + 1, handles := Register(s.handles, h, s.nextDef, LayoutOf(c)));
      CachedStaysSmall(t, c, s.nextDef);
    }
  }

  lemma AskCaches(s: Session, c: Call, h: nat, def: nat)
    requires h < |s.handles|
    ensures Ask(s, c, h, def).batchCache == s.batchCache && Ask(s, c, h, def).singleCache == s.singleCache
  {
  }

  lemma IssueStaysSmall(s: Session)
    requires CachesSmall(s)
    ensures CachesSmall(Issue(s))
  {
    if s.op.Captured? && s.op.handle < |s.handles| {
      var c, h := s.op.call, s.op.handle;
      EnsureStaysSmall(s, c, h);
      IssueCaches(s);
    }
  }

  /** The caches after the locked section of a call are those its definition step left. */
  lemma IssueCaches(s: Session)
    requires s.op.Captured? && s.op.handle < |s.handles|
    ensures var t := EnsureDef(s, s.op.call, s.op.handle).0;
            Issue(s).batchCache == t.batchCache && Issue(s).singleCache == t.singleCache
  {
    var e := EnsureDef(s, s.op.call, s.op.handle);
    if e.1.Some? && !s.op.call.WriteOne? {
      AskCaches(e.0, s.op.call, s.op.handle, e.1.value);
    }
  }

  lemma StepStaysSmall(s: Session, e: Event)
    requires CachesSmall(s)
    ensures CachesSmall(Apply(s, e))
  {
    if e.EIssue? {
      IssueStaysSmall(s);
    }
  }

  /** The caches stay within 48 and 64 entries, whatever happens. */
  lemma CachesStaySmall(s: Session, events: seq<Event>)
    requires CachesSmall(s)
    ensures CachesSmall(Run(s, events))
    decreases events
  {
    if events != [] {
      StepStaysSmall(s, events[0]);
      CachesStaySmall(Apply(s, events[0]), events[1..]);
    }
  }

  // ---- who resolves a waiter ----

  /** A completed waiter never changes, whatever happens, in any state. */
  lemma VerdictIsFinal(s: Session, e: Event, w: nat)
    requires w < |s.waiters|
    ensures var t := Apply(s, e);
            && w < |t.waiters| && t.waiters[w].request == s.waiters[w].request
            && (!s.waiters[w].verdict.Waiting? ==> t.waiters[w] == s.waiters[w])
  {
    match e
    case EIssue => IssueAppends(s);
    case _ =>
  }

  lemma IssueAppends(s: Session)
    ensures s.waiters <= Issue(s).waiters
  {
    if s.op.Captured? && s.op.handle < |s.handles| {
      EnsureFrame(s, s.op.call, s.op.handle);
    }
  }

  lemma EnsureFrame(s: Session, c: Call, h: nat)
    requires h < |s.handles|
    ensures var t := EnsureDef(s, c, h).0;
            t.waiters == s.waiters && t.nextReq == s.nextReq && t.pending == s.pending && t.live == s.live && t.owed == s.owed
  {
  }

  lemma VerdictStays(s: Session, events: seq<Event>, w: nat)
    requires w < |s.waiters| && !s.waiters[w].verdict.Waiting?
    ensures w < |Run(s, events).waiters| && Run(s, events).waiters[w] == s.waiters[w]
    decreases events
  {
    if events != [] {
      VerdictIsFinal(s, events[0], w);
      VerdictStays(Apply(s, events[0]), events[1..], w);
    }
  }

  /** What the request of waiter `w` answers, for the call that waits for it. */
  predicate OwnAnswer(s: Session, e: Event, w: nat, v: Verdict) {
    && e.EDeliver? && w < |s.waiters| && e.request == s.waiters[w].request
    && s.op.Awaiting? && s.op.waiter == w
    && v == Got(if s.op.call.ReadMany? then Batch(Reply(LayoutOf(s.op.call), e.sample))
                else Single(e.sample(LayoutOf(s.op.call)[0])))
  }

  /** A dynamic waiter is completed only by the data of its own request, by running out of time or by a
      tear-down that still owes the pending waiters their failure. */
  lemma WhoResolves(s: Session, e: Event, w: nat)
    requires Inv(s) && w < |s.waiters| && s.waiters[w].verdict.Waiting? && DYNAMIC_BASE <= s.waiters[w].request
    requires w < |Apply(s, e).waiters| && !Apply(s, e).waiters[w].verdict.Waiting?
    ensures var v := Apply(s, e).waiters[w].verdict;
            || (e == EExpire(w) && v == TimedOut)
            || (e == EFailPending && v == Dropped && s.owed > 0)
            || OwnAnswer(s, e, w, v)
  {
    match e
    case EIssue => IssueAppends(s);
    case EDeliver(r, sample) => DeliveredIsOwn(s, r, sample, w);
    case _ =>
  }

  /** A failure is owed only after a tear-down or a storm of timeouts. */
  lemma OwedMeansTornDown(s: Session, events: seq<Event>) returns (k: nat)
    requires s.owed == 0 && Run(s, events).owed > 0
    ensures k < |events| && (events[k].ETearDown? || events[k].ENoteTimeout?)
    decreases events
  {
    if Apply(s, events[0]).owed > 0 {
      OwedStep(s, events[0]);
      k := 0;
    } else {
      var j := OwedMeansTornDown(Apply(s, events[0]), events[1..]);
      k := j + 1;
    }
  }

  lemma OwedStep(s: Session, e: Event)
    requires s.owed == 0 && Apply(s, e).owed > 0
    ensures e.ETearDown? || e.ENoteTimeout?
  {
    if e.EIssue? && s.op.Captured? && s.op.handle < |s.handles| {
      EnsureFrame(s, s.op.call, s.op.handle);
    }
  }

  lemma DeliveredIsOwn(s: Session, r: nat, sample: Sample, w: nat)
    requires Inv(s) && w < |s.waiters| && s.waiters[w].verdict.Waiting? && DYNAMIC_BASE <= s.waiters[w].request
    requires !Deliver(s, r, sample).waiters[w].verdict.Waiting?
    ensures OwnAnswer(s, EDeliver(r, sample), w, Deliver(s, r, sample).waiters[w].verdict)
  {
    assert s.handles != [] && r in Newest(s).asked && r in s.pending && s.pending[r] == w;
    assert EntryOk(s, r) && IsAwaited(s, w);
    assert s.op.handle == |s.handles| - 1;
    var h := Newest(s);
    assert TicketOk(h, r, w, s.op.call);
    LayoutClean(s.op.call);
    assert h.defs[h.asked[r].def] == LayoutOf(s.op.call);
  }

  // ---- batched reads answer like direct reads ----

  function VarsOf(c: Call): seq<Var> {
    match c
    case ReadOne(v) => [v]
    case ReadMany(vars) => vars
    case WriteOne(v) => [v]
  }

  /** What a read makes of its payload. */
  function Answer(c: Call, p: Payload): Option<seq<real>> {
    match c
    case ReadMany(vars) => Unpack(p, |vars|)
    case _ => if p.Single? then Some([p.value]) else None
  }

  /** In every orderly run, data that completes the waiting call gives it, in order, the values
      that fresh one-variable definitions would have returned at that moment. */
  lemma AnswersAreDirect(events: seq<Event>, r: nat, sample: Sample)
    requires OrderlyRun(START, events) && Run(START, events).op.Awaiting?
    requires var s := Run(START, events);
             s.op.waiter < |s.waiters| && s.waiters[s.op.waiter].verdict.Waiting?
    requires var s := Run(START, events);
             !Deliver(s, r, sample).waiters[s.op.waiter].verdict.Waiting?
    ensures var s := Run(START, events);
            var v := Deliver(s, r, sample).waiters[s.op.waiter].verdict;
            v.Got? && Answer(s.op.call, v.payload) == Some(Direct(VarsOf(s.op.call), sample))
  {
    RunIsInv(events);
    var s := Run(START, events);
    DeliveredIsOwn(s, r, sample, s.op.waiter);
    var c := s.op.call;
    if c.ReadMany? {
      BatchIsDirect(c.vars, sample);
    } else {
      assert [sample(LayoutOf(c)[0])] == Direct(VarsOf(c), sample);
    }
  }

  // ---- the pipe client on top of the session ----

  /** A chunk as the session served it: the run up to its answer, and the data that came. */
  datatype Served = Served(events: seq<Event>, request: nat, sample: Sample)

  /** What the host replies to a chunk: the answer to the call that waits for it, if that data is its
      answer; otherwise (time-out, tear-down, another call) the chunk fails. */
  function HostReply(v: Served, vars: seq<Var>): Option<seq<real>> {
    var s := Run(START, v.events);
    var t := Deliver(s, v.request, v.sample);
    if s.op.Awaiting? && s.op.call == ReadMany(vars) && s.op.waiter < |s.waiters| && s.op.waiter < |t.waiters|
       && s.waiters[s.op.waiter].verdict.Waiting? && t.waiters[s.op.waiter].verdict.Got?
    then Answer(s.op.call, t.waiters[s.op.waiter].verdict.payload)
    else None
  }

  function HostOf(serve: nat -> Served): Host {
    (k: nat, vars: seq<Var>) => HostReply(serve(k), vars)
  }

  lemma RepliesAreDirect(v: Served, vars: seq<Var>)
    requires OrderlyRun(START, v.events) && HostReply(v, vars).Some?
    ensures HostReply(v, vars).value == Direct(vars, v.sample)
  {
    AnswersAreDirect(v.events, v.request, v.sample);
  }

  /** From the pipe client to the simulator: whatever runs served the chunks, when all of them succeed
      every variable gets what a fresh one-variable definition would have returned when its chunk
      was answered, in order. */
  lemma PipeReadsAreDirect(serve: nat -> Served, host: Host, vars: seq<Var>, i: nat)
    requires host == HostOf(serve) && forall k: nat :: OrderlyRun(START, serve(k).events)
    requires i < |vars| && ReadChunks(host, 0, vars).Some?
    ensures var r := ReadChunks(host, 0, vars).value;
            && |r| == |vars| && r[i] == serve(i / READ_SIMVARS_MAX).sample(DatumOf(vars[i]))
  {
    HostIsHonest(serve, host, SamplesOf(serve));
    SampledChunks(serve, host, vars, i);
  }

  lemma SampledChunks(serve: nat -> Served, host: Host, vars: seq<Var>, i: nat)
    requires Honest(host, SamplesOf(serve)) && i < |vars| && ReadChunks(host, 0, vars).Some?
    ensures var r := ReadChunks(host, 0, vars).value;
            && |r| == |vars| && r[i] == serve(i / READ_SIMVARS_MAX).sample(DatumOf(vars[i]))
  {
    ChunksAreDirect(host, SamplesOf(serve), 0, vars, i);
  }

  function SamplesOf(serve: nat -> Served): nat -> Sample {
    (k: nat) => serve(k).sample
  }

  lemma HostIsHonest(serve: nat -> Served, host: Host, samples: nat -> Sample)
    requires host == HostOf(serve) && samples == SamplesOf(serve)
    requires forall k: nat :: OrderlyRun(START, serve(k).events)
    ensures Honest(host, samples)
  {
    forall k: nat, vs | |vs| <= READ_SIMVARS_MAX && host(k, vs).Some? ensures host(k, vs).value == Direct(vs, samples(k)) {
      RepliesAreDirect(serve(k), vs);
    }
  }

  // ---- a read from its request to its answer ----

  /** Waiter `w` waits for request `r`, which is outstanding on the newest handle. */
  predicate Outstanding(t: Session, c: Call, h: nat, r: nat, w: nat) {
    && t.op == Awaiting(c, h, w) && t.live == Some(h)
    && w < |t.waiters| && t.waiters[w] == Waiter(r, Waiting)
    && r in t.pending && t.pending[r] == w && r in Newest(t).asked
  }

  /** A read on the live handle is always asked, under the next request id and for a new waiter. */
  lemma ReadIsAsked(s: Session)
    requires Inv(s) && s.op.Captured? && s.live == Some(s.op.handle) && !s.op.call.WriteOne?
    ensures Inv(Issue(s)) && Outstanding(Issue(s), s.op.call, s.op.handle, s.nextReq, |s.waiters|)
  {
    var c, h := s.op.call, s.op.handle;
    IssueKeeps(s);
    var e, def := IssueIsAsk(s);
    AskIs(e, c, def);
  }

  lemma IssueIsAsk(s: Session) returns (e: Session, def: nat)
    requires Inv(s) && s.op.Captured? && s.live == Some(s.op.handle) && !s.op.call.WriteOne?
    ensures Inv(e) && e.live == s.live && s.op.handle < |e.handles| && Issue(s) == Ask(e, s.op.call, s.op.handle, def)
    ensures e.waiters == s.waiters && e.nextReq == s.nextReq && e.pending == s.pending
  {
    EnsureKeeps(s, s.op.call);
    EnsureFrame(s, s.op.call, s.op.handle);
    e, def := EnsureDef(s, s.op.call, s.op.handle).0, EnsureDef(s, s.op.call, s.op.handle).1.value;
  }

  lemma AskIs(s: Session, c: Call, def: nat)
    requires HandlesOk(s) && s.live.Some?
    ensures Outstanding(Ask(s, c, s.live.value, def), c, s.live.value, s.nextReq, |s.waiters|)
  {
  }

  lemma DeliverCompletes(s: Session, r: nat, sample: Sample)
    requires s.handles != [] && r in Newest(s).asked && r in s.pending
    requires s.pending[r] < |s.waiters| && s.waiters[s.pending[r]].verdict.Waiting?
    ensures !Deliver(s, r, sample).waiters[s.pending[r]].verdict.Waiting?
  {
  }

  /** The round trip: whatever happened before, a read that reaches the live handle and is answered
      next gets, in order, what fresh one-variable definitions would have returned. */
  lemma ReadRoundTrip(events: seq<Event>, sample: Sample)
    requires OrderlyRun(START, events)
    requires var s := Run(START, events);
             s.op.Captured? && s.live == Some(s.op.handle) && !s.op.call.WriteOne?
    ensures var s := Run(START, events);
            var t := Deliver(Issue(s), s.nextReq, sample);
            && |s.waiters| < |t.waiters| && t.waiters[|s.waiters|].verdict.Got?
            && Answer(s.op.call, t.waiters[|s.waiters|].verdict.payload) == Some(Direct(VarsOf(s.op.call), sample))
  {
    RunIsInv(events);
    var s := Run(START, events);
    ReadIsAsked(s);
    IssueIsEvent(events);
    DeliverCompletes(Issue(s), s.nextReq, sample);
    AnswersAreDirect(events + [EIssue], s.nextReq, sample);
  }

  lemma IssueIsEvent(events: seq<Event>)
    requires OrderlyRun(START, events)
    ensures OrderlyRun(START, events + [EIssue]) && Run(START, events + [EIssue]) == Issue(Run(START, events))
  {
    RunAppend(START, events, [EIssue]);
    RunOne(Run(START, events), EIssue, []);
    assert [EIssue] + [] == [EIssue];
    OrderlyAppend(START, events, EIssue);
  }

  lemma OrderlyAppend(s: Session, events: seq<Event>, e: Event)
    requires OrderlyRun(s, events) && Orderly(Run(s, events), e)
    ensures OrderlyRun(s, events + [e])
    decreases events
  {
    if events == [] {
      assert [] + [e] == [e] && [e][1..] == [];
    } else {
      assert (events + [e])[0] == events[0] && (events + [e])[1..] == events[1..] + [e];
      OrderlyAppend(Apply(s, events[0]), events[1..], e);
    }
  }

  /** A connect that cannot reuse the session ends with a fresh handle: nothing registered, nothing
      asked, nothing cached, counters restarted, every other handle disposed. */
  lemma ReconnectIsFresh(s: Session)
    requires Inv(s) && !CanReuse(s)
    ensures var t := ConnectCreate(ConnectDrop(s));
            && Inv(t) && t.live == Some(|s.handles|) && |t.handles| == |s.handles| + 1
            && Newest(t) == FRESH && NothingCached(t)
            && t.nextDef == t.nextReq == DYNAMIC_BASE && t.timeouts == 0 && !t.tearing
            && forall k | 0 <= k < |s.handles| :: t.handles[k].disposed
  {
    var d := ConnectDrop(s);
    ConnectDropKeeps(s);
    DroppedIsNone(s);
    CreateKeeps(d);
    CreatedIsFresh(d);
  }

  lemma DroppedIsNone(s: Session)
    requires !CanReuse(s)
    ensures var d := ConnectDrop(s);
            d.live.None? && d.connectors == s.connectors + 1 && |d.handles| == |s.handles|
  {
  }

  lemma CreatedIsFresh(s: Session)
    requires HandlesOk(s) && s.live.None? && s.connectors > 0
    ensures var t := ConnectCreate(s);
            && t.live == Some(|s.handles|) && |t.handles| == |s.handles| + 1
            && Newest(t) == FRESH && NothingCached(t)
            && t.nextDef == t.nextReq == DYNAMIC_BASE && t.timeouts == 0 && !t.tearing
            && forall k | 0 <= k < |s.handles| :: t.handles[k].disposed
  {
  }

  /** The operation lock is never stuck: the waiting call can always expire and leave. */
  lemma LockIsFreed(events: seq<Event>)
    requires OrderlyRun(START, events) && Run(START, events).op.Awaiting?
    ensures Run(START, events + [EExpire(Run(START, events).op.waiter), EReturn]).op == Idle
  {
    RunIsInv(events);
    var s := Run(START, events);
    RunAppend(START, events, [EExpire(s.op.waiter), EReturn]);
    var t := Expire(s, s.op.waiter);
    assert Run(s, [EExpire(s.op.waiter), EReturn]) == Run(t, [EReturn]) == Run(Return(t), []);
  }

  lemma RunAppend(s: Session, xs: seq<Event>, ys: seq<Event>)
    ensures Run(s, xs + ys) == Run(Run(s, xs), ys)
    decreases xs
  {
    if xs == [] {
      assert xs + ys == ys;
    } else {
      assert (xs + ys)[0] == xs[0] && (xs + ys)[1..] == xs[1..] + ys;
      RunAppend(Apply(s, xs[0]), xs[1..], ys);
    }
  }

  // ---- where connects overlap ----

  /** Only the newest handle can be open. */
  predicate OneHandle(s: Session) {
    && (s.live.Some? ==> s.live.value == |s.handles| - 1)
    && (forall k | 0 <= k < |s.handles| :: s.live == Some(k) <==> !s.handles[k].disposed)
  }

  /** The second section of a connect leaves an open handle behind exactly when, by then, another
      connect has opened one that cannot be reused. */
  lemma CreateLeaksIff(s: Session)
    requires OneHandle(s)
    ensures OneHandle(ConnectCreate(s)) <==> s.connectors == 0 || s.live.None? || CanReuse(s)
  {
    var t := ConnectCreate(s);
    if s.connectors > 0 && s.live.Some? && !CanReuse(s) {
      assert t.handles[s.live.value] == s.handles[s.live.value];
      assert t.live == Some(|s.handles|);
    }
  }

  const LEAKED := Datum("A", None)
  const OVERLAP := [EConnectDrop, EConnectDrop, EConnectCreate, EOpened, EAskFixed(1),
                    EEnter(ReadOne(Var("A", ""))), ECapture, EExpire(0), ENoteTimeout, EConnectCreate, EIssue]

  /** With two overlapping connects an id is cached that the live handle has never heard of. */
  lemma OverlapBreaksTheCache()
    ensures var s := Run(START, OVERLAP);
            && s.live == Some(1) && |s.handles| == 2 && Part(LEAKED) in s.singleCache
            && s.singleCache[Part(LEAKED)] !in s.handles[1].defs
  {
    var s4 := OverlapOpens();
    var s9 := OverlapTimesOut(s4);
    OverlapIssues(s9);
    assert OVERLAP == OVERLAP[..4] + OVERLAP[4..] && OVERLAP[4..] == OVERLAP[4..9] + OVERLAP[9..];
    RunAppend(START, OVERLAP[..4], OVERLAP[4..]);
    RunAppend(s4, OVERLAP[4..9], OVERLAP[9..]);
  }

  lemma OverlapOpens() returns (s: Session)
    ensures s == Run(START, OVERLAP[..4])
    ensures s == START.(live := Some(0), open := true, handles := [FRESH], connectors := 1)
  {
    assert OVERLAP[..4] == [EConnectDrop, EConnectDrop, EConnectCreate, EOpened];
    s := Opened(ConnectCreate(ConnectDrop(ConnectDrop(START))));
    Run4(START, EConnectDrop, EConnectDrop, EConnectCreate, EOpened);
  }

  lemma RunOne(s: Session, e: Event, rest: seq<Event>)
    ensures Run(s, [e] + rest) == Run(Apply(s, e), rest)
  {
    assert ([e] + rest)[1..] == rest;
  }

  lemma Run2(s: Session, a: Event, b: Event)
    ensures Run(s, [a, b]) == Apply(Apply(s, a), b)
  {
    RunOne(s, a, [b]);
    assert [a] + [b] == [a, b];
    RunOne(Apply(s, a), b, []);
    assert [b] + [] == [b];
  }

  lemma Run4(s: Session, a: Event, b: Event, c: Event, d: Event)
    ensures Run(s, [a, b, c, d]) == Apply(Apply(Apply(Apply(s, a), b), c), d)
  {
    assert [a, b] + [c, d] == [a, b, c, d];
    RunAppend(s, [a, b], [c, d]);
    Run2(s, a, b);
    Run2(Run(s, [a, b]), c, d);
  }

  lemma OverlapTimesOut(s: Session) returns (t: Session)
    requires s == START.(live := Some(0), open := true, handles := [FRESH], connectors := 1)
    ensures t == Run(s, OVERLAP[4..9])
    ensures t.op == Captured(ReadOne(Var("A", "")), 0) && t.live == Some(0) && t.timeouts == 1 && t.connectors == 1
    ensures |t.handles| == 1 && !t.handles[0].disposed && t.handles[0].defs == map[]
  {
    var c := ReadOne(Var("A", ""));
    assert OVERLAP[4..9] == [EAskFixed(1), EEnter(c), ECapture, EExpire(0)] + [ENoteTimeout];
    var t1 := AskFixed(s, 1);
    var t4 := Expire(Capture(Enter(t1, c)), 0);
    t := NoteTimeout(t4);
    Run4(s, EAskFixed(1), EEnter(c), ECapture, EExpire(0));
    RunAppend(s, [EAskFixed(1), EEnter(c), ECapture, EExpire(0)], [ENoteTimeout]);
    assert Run(t4, [ENoteTimeout]) == Run(t, []);
  }

  lemma OverlapIssues(s: Session)
    requires s.op == Captured(ReadOne(Var("A", "")), 0) && s.live == Some(0) && s.timeouts == 1 && s.connectors == 1
    requires |s.handles| == 1 && !s.handles[0].disposed && s.handles[0].defs == map[]
    ensures var t := Run(s, OVERLAP[9..]);
            && t.live == Some(1) && |t.handles| == 2 && Part(LEAKED) in t.singleCache
            && t.singleCache[Part(LEAKED)] !in t.handles[1].defs
  {
    var c := ReadOne(Var("A", ""));
    var t := ConnectCreate(s);
    assert OVERLAP[9..] == [EConnectCreate, EIssue] && [EConnectCreate, EIssue][1..] == [EIssue];
    assert Run(s, OVERLAP[9..]) == Run(t, [EIssue]) == Run(Issue(t), []);
    assert DatumOf(Var("A", "")) == LEAKED;
    var e := EnsureDef(t, c, 0);
    assert e.0.singleCache == map[Part(LEAKED) := 100];
    assert e.0.handles[1] == t.handles[1];
    assert Issue(t) == Ask(e.0, c, 0, 100);
  }
}

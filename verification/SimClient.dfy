/** The session object itself: the fields the locked sections update, one method per section. */
module {:induction false} SimClient {
  import opened Options
  import opened SimReads
  import opened SimSession

  class SimConnectClient {
    var live: Option<nat>
    var open: bool
    var nextDef: nat
    var nextReq: nat
    var batchCache: map<string, nat>
    var singleCache: map<string, nat>
    var pending: map<nat, nat>
    var op: Op
    var handles: seq<Handle>
    var waiters: seq<Waiter>
    var timeouts: nat
    var unrecognized: nat
    var tearing: bool
    var connectors: nat
    var owed: nat

    ghost function State(): Session
      reads this
    {
      Session(live, open, nextDef, nextReq, batchCache, singleCache, pending, op, handles, waiters,
              timeouts, unrecognized, tearing, connectors, owed)
    }

    constructor ()
      ensures State() == START
    {
      live, open, nextDef, nextReq := None, false, DYNAMIC_BASE, DYNAMIC_BASE;
      batchCache, singleCache, pending, op := map[], map[], map[], Idle;
      handles, waiters := [], [];
      timeouts, unrecognized, tearing, connectors, owed := 0, 0, false, 0, 0;
    }

    method CanReuseOpenSession() returns (yes: bool)
      ensures yes == CanReuse(State())
    {
      yes := live.Some? && open && timeouts == 0 && !tearing && unrecognized < UNRECOGNIZED_ID_STORM_LIMIT;
    }

    method DisposeHandle()
      modifies this`handles
      ensures handles == Disposed(old(handles), live)
    {
      if live.Some? && live.value < |handles| {
        handles := handles[live.value := handles[live.value].(disposed := true)];
      }
    }

    /** Dispose the handle, if any, and forget it with everything cached for it. */
    method DropHandle()
      modifies this`handles, this`live, this`open, this`batchCache, this`singleCache
      ensures handles == Disposed(old(handles), old(live))
      ensures live.None? && !open && batchCache == map[] && singleCache == map[]
    {
      DisposeHandle();
      live, open := None, false;
      batchCache, singleCache := map[], map[];
    }

    /** Connect, first section. `mine` says whether this call goes on to the second. */
    method ConnectDropStale() returns (mine: bool)
      modifies this
      ensures State() == ConnectDrop(old(State()))
      ensures mine == !CanReuse(old(State()))
    {
      var reuse := CanReuseOpenSession();
      if reuse {
        return false;
      }
      if live.Some? {
        DropHandle();
      }
      connectors := connectors + 1;
      mine := true;
    }

    /** Restart the counters, caches and health flags of a session. */
    method ResetSession()
      modifies this`nextDef, this`nextReq, this`batchCache, this`singleCache, this`timeouts, this`unrecognized, this`tearing
      ensures nextDef == nextReq == DYNAMIC_BASE && batchCache == map[] && singleCache == map[]
      ensures timeouts == unrecognized == 0 && !tearing
    {
      nextDef, nextReq := DYNAMIC_BASE, DYNAMIC_BASE;
      batchCache, singleCache := map[], map[];
      timeouts, unrecognized, tearing := 0, 0, false;
    }

    /** Connect, second section, when SimConnect gives a handle. */
    method ConnectOpenNew()
      requires connectors > 0
      modifies this
      ensures State() == ConnectCreate(old(State()))
    {
      var reuse := CanReuseOpenSession();
      connectors := connectors - 1;
      if !reuse {
        live := Some(|handles|);
        handles := handles + [FRESH];
        ResetSession();
      }
    }

    /** Tear-down after a receive failure or a storm, and the locked part of a disconnect. */
    method TearDownAfterRecvFailure()
      modifies this
      ensures State() == TearDown(old(State()))
    {
      DropHandle();
      timeouts, unrecognized, tearing := 0, 0, false;
      owed := owed + 1;
    }

    /** Fail every pending waiter, one entry at a time in any order. */
    method FailAllPending()
      requires owed > 0
      modifies this
      ensures State() == FailPending(old(State()))
    {
      ghost var start := State();
      var keys := pending.Keys;
      ghost var done: set<nat> := {};
      assert waiters == DropAll(start.waiters, done);
      while keys != {}
        invariant keys <= pending.Keys
        invariant done == set r | r in pending && r !in keys :: pending[r]
        invariant State() == start.(waiters := DropAll(start.waiters, done))
        decreases keys
      {
        var r :| r in keys;
        waiters := Resolved(waiters, pending[r], Dropped);
        keys := keys - {r};
        DropOne(start.waiters, done, pending[r]);
        done := done + {pending[r]};
      }
      assert done == pending.Values;
    }

    method ClearPendingTable()
      requires owed > 0
      modifies this
      ensures State() == ClearPending(old(State()))
    {
      pending := map[];
      owed := owed - 1;
    }

    /** A new completion source for a request id. */
    method NewPending(r: nat) returns (w: nat)
      modifies this`pending, this`waiters
      ensures w == |old(waiters)| && waiters == old(waiters) + [Waiter(r, Waiting)]
      ensures pending == old(pending)[r := w]
    {
      w := |waiters|;
      waiters := waiters + [Waiter(r, Waiting)];
      pending := pending[r := w];
    }

    /** Add one datum to a definition of a handle. */
    method AddToDataDefinition(h: nat, def: nat, datum: Datum)
      requires h < |handles|
      modifies this`handles
      ensures handles == Register(old(handles), h, def, [datum])
    {
      var known := if def in handles[h].defs then handles[h].defs[def] else [];
      handles := handles[h := handles[h].(defs := handles[h].defs[def := known + [datum]])];
    }

    /** Add a whole layout, datum by datum. */
    method AddAll(h: nat, def: nat, layout: seq<Datum>)
      requires h < |handles| && layout != []
      modifies this`handles
      ensures handles == Register(old(handles), h, def, layout)
    {
      AddToDataDefinition(h, def, layout[0]);
      assert [layout[0]] == layout[..1];
      var i := 1;
      while i < |layout|
        invariant 1 <= i <= |layout|
        invariant handles == Register(old(handles), h, def, layout[..i])
      {
        RegisterTwice(old(handles), h, def, layout[..i], [layout[i]]);
        AddToDataDefinition(h, def, layout[i]);
        assert layout[..i] + [layout[i]] == layout[..i + 1];
        i := i + 1;
      }
      assert layout[..i] == layout;
    }

    /** Look a batch up, or register it datum by datum and cache it while there is room. */
    method EnsureBatchDef(vars: seq<Var>, h: nat) returns (def: Option<nat>)
      requires h < |handles|
      modifies this
      ensures (State(), def) == EnsureDef(old(State()), ReadMany(vars), h)
    {
      ghost var start := State();
      var layout := BatchLayout(vars);
      var key := BatchKey(layout);
      if key in batchCache {
        return Some(batchCache[key]);
      }
      var d := nextDef;
      nextDef := nextDef + 1;
      if handles[h].disposed {
        return None;
      }
      AddAll(h, d, layout);
      if |batchCache| < MAX_CACHED_BATCH_DEFS {
        batchCache := batchCache[key := d];
      }
      def := Some(d);
    }

    method EnsureSingleDef(v: Var, h: nat) returns (def: Option<nat>)
      requires h < |handles|
      modifies this
      ensures (State(), def) == EnsureDef(old(State()), ReadOne(v), h)
    {
      var key := Part(DatumOf(v));
      if key in singleCache {
        return Some(singleCache[key]);
      }
      var d := nextDef;
      nextDef := nextDef + 1;
      if handles[h].disposed {
        return None;
      }
      AddToDataDefinition(h, d, DatumOf(v));
      if |singleCache| < MAX_CACHED_SINGLE_DEFS {
        singleCache := singleCache[key := d];
      }
      def := Some(d);
    }

    /** Request the data of a definition; on a disposed handle the call fails after its pending
        entry was made. */
    method RequestData(c: Call, h: nat, def: nat)
      requires h < |handles|
      modifies this
      ensures State() == Ask(old(State()), c, h, def)
    {
      var r := nextReq;
      nextReq := nextReq + 1;
      var w := NewPending(r);
      if handles[h].disposed {
        op := Idle;
        return;
      }
      handles := handles[h := Requested(handles[h], r, Ticket(def, w))];
      op := Awaiting(c, h, w);
    }

    /** The locked section of a read. */
    method ReadSection()
      requires op.Captured? && !op.call.WriteOne? && op.handle < |handles|
      modifies this
      ensures State() == Issue(old(State()))
    {
      var c, h := op.call, op.handle;
      var def: Option<nat>;
      match c {
        case ReadOne(v) => def := EnsureSingleDef(v, h);
        case ReadMany(vars) => def := EnsureBatchDef(vars, h);
        case WriteOne(_) => def := None;
      }
      match def {
        case None => op := Idle;
        case Some(d) => RequestData(c, h, d);
      }
    }

    /** The locked section of a write. */
    method WriteSection()
      requires op.Captured? && op.call.WriteOne? && op.handle < |handles|
      modifies this
      ensures State() == Issue(old(State()))
    {
      var d, h := nextDef, op.handle;
      nextDef := nextDef + 1;
      if !handles[h].disposed {
        AddToDataDefinition(h, d, DatumOf(op.call.v));
      }
      op := Idle;
    }

    /** Data arrives for an outstanding request of the newest handle. */
    method OnRecvSimobjectData(r: nat, sample: Sample)
      requires handles != [] && r in handles[|handles| - 1].asked
      modifies this
      ensures State() == Deliver(old(State()), r, sample)
    {
      var n := |handles| - 1;
      var h := handles[n];
      handles := handles[n := h.(asked := h.asked - {r})];
      timeouts, unrecognized := 0, 0;
      if r !in pending {
        return;
      }
      var w := pending[r];
      pending := pending - {r};
      waiters := Resolved(waiters, w, Got(PayloadOf(h, h.asked[r], sample)));
    }

    /** A caller saw its own timeout. */
    method NoteTimeout()
      modifies this
      ensures State() == SimSession.NoteTimeout(old(State()))
    {
      timeouts := timeouts + 1;
      if timeouts >= TIMEOUT_STORM_LIMIT {
        TearDownAfterRecvFailure();
      }
    }
  }

  lemma DropOne(waiters: seq<Waiter>, done: set<nat>, w: nat)
    ensures Resolved(DropAll(waiters, done), w, Dropped) == DropAll(waiters, done + {w})
  {
  }

  lemma RegisterTwice(handles: seq<Handle>, h: nat, d: nat, a: seq<Datum>, b: seq<Datum>)
    requires h < |handles|
    ensures Register(Register(handles, h, d, a), h, d, b) == Register(handles, h, d, a + b)
  {
    var known := if d in handles[h].defs then handles[h].defs[d] else [];
    assert known + (a + b) == (known + a) + b;
    assert handles[h].defs[d := known + a][d := known + (a + b)] == handles[h].defs[d := known + (a + b)];
  }
}

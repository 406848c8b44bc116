/** When a connect keeps the session it finds, in terms of what happened to it, and when storms end it. */
module {:induction false} SessionReuse {
  import opened Options
  import opened SimReads
  import opened SimSession
  import opened SimSessionLaws

  /** A whole connect: the first section, and the second one when the first did not return early. */
  function Connect(s: Session): Session {
    var d := ConnectDrop(s);
    if d.connectors == s.connectors then d else ConnectCreate(d)
  }

  /** A handle that was opened and has not been harmed since. */
  predicate Healthy(s: Session) {
    s.live.Some? && s.open && s.timeouts == 0 && s.unrecognized < 5 && !s.tearing
  }

  /** What a connect that keeps the session leaves alone. */
  predicate SameSession(s: Session, t: Session) {
    && t.live == s.live && t.handles == s.handles && t.pending == s.pending
    && t.batchCache == s.batchCache && t.singleCache == s.singleCache
  }

  /** What a connect that does not keep it ends with. */
  predicate NewSession(s: Session, t: Session) {
    && t.live == Some(|s.handles|) && |t.handles| == |s.handles| + 1
    && t.handles[|s.handles|] == Handle(false, map[], map[], {})
    && t.batchCache == map[] && t.singleCache == map[] && t.pending == s.pending
    && t.timeouts == 0 && t.unrecognized == 0 && !t.tearing
    && (s.live.Some? && s.live.value < |s.handles| ==> t.handles[s.live.value].disposed)
  }

  /** A connect keeps the session exactly when it is healthy, and otherwise replaces it. */
  lemma ConnectKeepsIff(s: Session)
    ensures SameSession(s, Connect(s)) <==> Healthy(s)
    ensures Healthy(s) ==> Connect(s) == s
    ensures !Healthy(s) ==> NewSession(s, Connect(s))
  {
  }

  // ---- runs that leave a session healthy ----

  /** Reads, writes and their answers. */
  predicate Calm(e: Event) {
    e.EEnter? || e.ECapture? || e.EIssue? || e.EAskFixed? || e.EDeliver? || e.EReturn?
  }

  lemma CalmStep(s: Session, e: Event)
    requires Calm(e)
    ensures var t := Apply(s, e);
            && t.live == s.live && t.open == s.open && t.tearing == s.tearing
            && t.timeouts <= s.timeouts && t.unrecognized <= s.unrecognized
  {
    if e.EIssue? && s.op.Captured? && s.op.handle < |s.handles| {
      IssueKeepsHealth(s);
    }
  }

  /** The fields a connect asks about. */
  predicate SameHealth(s: Session, t: Session) {
    t.live == s.live && t.open == s.open && t.tearing == s.tearing && t.timeouts == s.timeouts && t.unrecognized == s.unrecognized
  }

  lemma EnsureKeepsHealth(s: Session, c: Call, h: nat)
    requires h < |s.handles|
    ensures SameHealth(s, EnsureDef(s, c, h).0) && |EnsureDef(s, c, h).0.handles| == |s.handles|
  {
  }

  lemma AskKeepsHealth(s: Session, c: Call, h: nat, def: nat)
    requires h < |s.handles|
    ensures SameHealth(s, Ask(s, c, h, def))
  {
  }

  lemma IssueKeepsHealth(s: Session)
    requires s.op.Captured? && s.op.handle < |s.handles|
    ensures SameHealth(s, Issue(s))
  {
    var c, h := s.op.call, s.op.handle;
    var e := EnsureDef(s, c, h);
    assert SameHealth(s, e.0) && h < |e.0.handles| by {
      EnsureKeepsHealth(s, c, h);
    }
    match e.1
    case None => assert Issue(s) == e.0.(op := Idle);
    case Some(def) =>
      if c.WriteOne? {
        assert Issue(s) == e.0.(op := Idle);
      } else {
        assert Issue(s) == Ask(e.0, c, h, def);
        AskKeepsHealth(e.0, c, h, def);
      }
  }

  lemma CalmRun(s: Session, events: seq<Event>)
    requires forall e <- events :: Calm(e)
    ensures var t := Run(s, events);
            && t.live == s.live && t.open == s.open && t.tearing == s.tearing
            && t.timeouts <= s.timeouts && t.unrecognized <= s.unrecognized
    decreases events
  {
    if events != [] {
      assert events[0] in events;
      CalmStep(s, events[0]);
      CalmRun(Apply(s, events[0]), events[1..]);
    }
  }

  /** Whatever was there before, after a connect that is answered by an open, reads and answers leave the next
      connect without effect. */
  lemma OpenedSessionIsKept(s: Session, events: seq<Event>)
    requires forall e <- events :: Calm(e)
    ensures var t := Run(Opened(Connect(s)), events);
            Healthy(t) && Connect(t) == t
  {
    ConnectKeepsIff(s);
    CalmRun(Opened(Connect(s)), events);
    ConnectKeepsIff(Run(Opened(Connect(s)), events));
  }

  // ---- storms ----

  function Times(e: Event, n: nat): seq<Event> {
    if n == 0 then [] else [e] + Times(e, n - 1)
  }

  lemma UnrecognizedRun(s: Session, n: nat)
    ensures var t := Run(s, Times(EUnrecognized, n));
            && t.live == s.live && t.open == s.open && t.timeouts == s.timeouts
            && t.unrecognized == s.unrecognized + n && (t.tearing <==> s.tearing || (n > 0 && s.unrecognized + n >= 5))
    decreases n
  {
    if n > 0 {
      var rest := Times(EUnrecognized, n - 1);
      assert Times(EUnrecognized, n)[1..] == rest;
      var u := Unrecognized(s);
      assert Run(s, Times(EUnrecognized, n)) == Run(u, rest);
      UnrecognizedRun(u, n - 1);
    }
  }

  /** Four unrecognised ids in a row are put up with. After five, the session is replaced by the next
      connect, even if data has reset the counter in between. */
  lemma StormIsReplaced(s: Session, n: nat, events: seq<Event>)
    requires Healthy(s) && s.unrecognized == 0 && forall e <- events :: Calm(e)
    ensures var t := Run(Run(s, Times(EUnrecognized, n)), events);
            if n < 5 then Healthy(t) && Connect(t) == t else t.tearing && NewSession(t, Connect(t))
  {
    UnrecognizedRun(s, n);
    var u := Run(s, Times(EUnrecognized, n));
    CalmRun(u, events);
    ConnectKeepsIff(Run(u, events));
  }

  /** One or two time-outs in a row leave the handle to the next connect, which replaces it; the third tears
      the session down at once. */
  lemma TimeoutStorm(s: Session)
    requires Healthy(s)
    ensures var one := NoteTimeout(s);
            var two := NoteTimeout(one);
            var three := NoteTimeout(two);
            && one.live == s.live && NewSession(one, Connect(one))
            && two.live == s.live && NewSession(two, Connect(two))
            && three.live.None? && !three.open && three.batchCache == map[] && three.singleCache == map[]
            && three.owed == s.owed + 1 && three.timeouts == 0
  {
    ConnectKeepsIff(NoteTimeout(s));
    ConnectKeepsIff(NoteTimeout(NoteTimeout(s)));
  }

  /** An answer in between starts the count afresh. */
  lemma AnswerEndsStorm(s: Session, r: nat, sample: Sample)
    requires s.handles != [] && r in Newest(s).asked
    ensures Deliver(s, r, sample).timeouts == 0 && Deliver(s, r, sample).unrecognized == 0
  {
  }

  /** An open from the simulator makes a live session healthy, unless a tear-down is already pending. */
  lemma OpenHeals(s: Session)
    requires s.live.Some?
    ensures Healthy(Opened(s)) <==> !s.tearing
    ensures if s.tearing then NewSession(Opened(s), Connect(Opened(s))) else Connect(Opened(s)) == Opened(s)
  {
    ConnectKeepsIff(Opened(s));
  }

  // ---- who gets the operation lock ----

  /** A call enters only when nobody is inside, and goes on to a handle only when that handle has been
      opened. */
  lemma LockAdmitsOne(s: Session, c: Call)
    ensures Enter(s, c).op == (if s.op == Idle then Entered(c) else s.op)
    ensures s.op.Entered? ==> Capture(s).op == if s.live.Some? && s.open then Captured(s.op.call, s.live.value) else Idle
    ensures !s.op.Entered? ==> Capture(s) == s
  {
  }

  /** The snapshot request 1 and the identity request 2 go out on an opened handle without the lock; no other
      fixed id does. */
  lemma FixedRequestsGoOut(s: Session, id: nat)
    requires s.live.Some? && s.live.value < |s.handles|
    ensures var t := AskFixed(s, id);
            if s.open && (id == 1 || id == 2) then
              && t.waiters == s.waiters + [Waiter(id, Waiting)] && t.pending == s.pending[id := |s.waiters|]
              && t.op == s.op && id in t.handles[s.live.value].asked
            else t == s
  {
  }

  // ---- definitions are registered once ----

  predicate RoomInCache(s: Session, c: Call) {
    match c
    case ReadOne(_) => |s.singleCache| < 64
    case ReadMany(_) => |s.batchCache| < 48
    case WriteOne(_) => false
  }

  /** A read registers its definition once: while there is room, the same read finds it again and spends no
      further definition id. */
  lemma ReadsRegisterOnce(s: Session, c: Call, h: nat)
    requires h < |s.handles| && !s.handles[h].disposed && CachedDef(s, c).None? && RoomInCache(s, c)
    ensures var first := EnsureDef(s, c, h).0;
            && EnsureDef(s, c, h).1 == Some(s.nextDef) && first.nextDef == s.nextDef + 1
            && EnsureDef(first, c, h) == (first, Some(s.nextDef))
  {
  }
}

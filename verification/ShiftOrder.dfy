/** Who is served first when payload moves: targets further along the way before nearer ones, deferred ones
    last, and the sources furthest back before the others. */
module {:induction false} ShiftOrder {
  import opened Options
  import opened Weights
  import opened Stations
  import opened Sorting
  import opened LateralRows
  import opened CgShift
  import opened CgShiftLaws

  // ---- fore and aft ----

  /** Every known listed station has an arm, and there is one. */
  predicate Armed(p: Profile, ids: seq<int>) {
    var ss := Resolve(p, ids);
    |ss| > 0 && forall s <- ss :: s.arm.Some?
  }

  /** `i` lies further forward than `j`: by its larger arm, or by its smaller index when arms are missing. */
  predicate Fore(p: Profile, ids: seq<int>, i: int, j: int) {
    if Armed(p, ids) then ArmOf(p, i).Some? && ArmOf(p, j).Some? && ArmOf(p, i).value > ArmOf(p, j).value
    else i < j
  }

  lemma ForeIsEarlier(p: Profile, ids: seq<int>, x: nat, y: nat)
    requires x < |ForwardFirst(p, ids)| && y < |ForwardFirst(p, ids)|
    requires Fore(p, ids, ForwardFirst(p, ids)[x], ForwardFirst(p, ids)[y])
    ensures x < y
  {
    if Armed(p, ids) {
      OrderGraded(p, ids);
      GradedBack(p, ids, ForwardFirst(p, ids), x, y);
    } else {
      SortOrders(ids, Ascending);
    }
  }

  lemma GradedBack(p: Profile, ids: seq<int>, order: seq<int>, x: nat, y: nat)
    requires Graded(p, order) && x < |order| && y < |order|
    requires ArmOf(p, order[x]).Some? && ArmOf(p, order[y]).Some? && ArmOf(p, order[x]).value > ArmOf(p, order[y]).value
    ensures x < y
  {
  }

  /** `i` comes before `j` in a list. */
  ghost predicate Precedes(s: seq<int>, i: int, j: int) {
    exists a, b :: 0 <= a < b < |s| && s[a] == i && s[b] == j
  }

  lemma ForePrecedes(p: Profile, ids: seq<int>, i: int, j: int)
    requires i in ForwardFirst(p, ids) && j in ForwardFirst(p, ids) && Fore(p, ids, i, j)
    ensures Precedes(ForwardFirst(p, ids), i, j)
  {
    var order := ForwardFirst(p, ids);
    var a :| 0 <= a < |order| && order[a] == i;
    var b :| 0 <= b < |order| && order[b] == j;
    ForeIsEarlier(p, ids, a, b);
  }

  lemma ReversedPrecedes(s: seq<int>, i: int, j: int)
    requires Precedes(s, i, j)
    ensures Precedes(Reversed(s), j, i)
  {
    var a, b :| 0 <= a < b < |s| && s[a] == i && s[b] == j;
    var r := Reversed(s);
    assert r[|s| - 1 - a] == i && r[|s| - 1 - b] == j;
  }

  lemma AppendPrecedes(a: seq<int>, b: seq<int>, i: int, j: int)
    ensures i in a && j in b ==> Precedes(a + b, i, j)
    ensures Precedes(a, i, j) || Precedes(b, i, j) ==> Precedes(a + b, i, j)
  {
    var s := a + b;
    if i in a && j in b {
      var x :| 0 <= x < |a| && a[x] == i;
      var y :| 0 <= y < |b| && b[y] == j;
      assert s[x] == i && s[|a| + y] == j;
    }
    if Precedes(a, i, j) {
      var x, y :| 0 <= x < y < |a| && a[x] == i && a[y] == j;
      assert s[x] == i && s[y] == j;
    }
    if Precedes(b, i, j) {
      var x, y :| 0 <= x < y < |b| && b[x] == i && b[y] == j;
      assert s[|a| + x] == i && s[|a| + y] == j;
    }
  }

  lemma PrecedesTail(s: seq<int>, i: int, j: int)
    requires s != []
    ensures Precedes(s, i, j) <==> (s[0] == i && j in s[1..]) || Precedes(s[1..], i, j)
  {
    if Precedes(s, i, j) {
      var a, b :| 0 <= a < b < |s| && s[a] == i && s[b] == j;
      assert s[1..][b - 1] == j;
      if a > 0 {
        assert s[1..][a - 1] == i;
      }
    }
    AppendPrecedes([s[0]], s[1..], i, j);
    assert s == [s[0]] + s[1..];
  }

  /** Leaving members out keeps the order of the others. */
  lemma FilterPrecedes(s: seq<int>, deferred: set<int>, i: int, j: int)
    requires Precedes(s, i, j)
    ensures i !in deferred && j !in deferred ==> Precedes(Without(s, deferred), i, j)
    ensures i in deferred && j in deferred ==> Precedes(Only(s, deferred), i, j)
  {
    PrecedesTail(s, i, j);
    var head, rest := [s[0]], s[1..];
    WithoutHas(rest, deferred, j);
    AppendPrecedes(if s[0] in deferred then [] else head, Without(rest, deferred), i, j);
    AppendPrecedes(if s[0] in deferred then head else [], Only(rest, deferred), i, j);
    if Precedes(rest, i, j) {
      FilterPrecedes(rest, deferred, i, j);
    }
  }

  /** Who is to be served before whom: going forward, deferred stations after the others and in each class
      the further forward first; going aft, the further aft first. */
  predicate Preferred(p: Profile, movable: seq<int>, direction: Direction, deferred: set<int>, i: int, j: int) {
    match direction
    case Forward => if (i in deferred) == (j in deferred) then Fore(p, movable, i, j) else j in deferred
    case Aft => Fore(p, movable, j, i)
  }

  lemma PreferredPrecedes(p: Profile, movable: seq<int>, direction: Direction, deferred: set<int>, i: int, j: int)
    requires i in ForwardFirst(p, movable) && j in ForwardFirst(p, movable)
    requires Preferred(p, movable, direction, deferred, i, j)
    ensures Precedes(Targets(ForwardFirst(p, movable), direction, deferred), i, j)
  {
    var order := ForwardFirst(p, movable);
    match direction
    case Aft =>
      ForePrecedes(p, movable, j, i);
      ReversedPrecedes(order, j, i);
    case Forward =>
      WithoutHas(order, deferred, i);
      WithoutHas(order, deferred, j);
      AppendPrecedes(Without(order, deferred), Only(order, deferred), i, j);
      if (i in deferred) == (j in deferred) {
        ForePrecedes(p, movable, i, j);
        FilterPrecedes(order, deferred, i, j);
      }
  }

  // ---- which moves are allowed ----

  /** Feet that a move from `src` to `dst` gains in its direction. */
  function GainFt(p: Profile, direction: Direction, src: int, dst: int): real
    requires ArmOf(p, src).Some? && ArmOf(p, dst).Some?
  {
    if direction == Forward then ArmOf(p, dst).value - ArmOf(p, src).value else ArmOf(p, src).value - ArmOf(p, dst).value
  }

  predicate RowMates(p: Profile, movable: seq<int>, i: int, j: int) {
    (i, j) in Rows(p, movable) || (j, i) in Rows(p, movable)
  }

  lemma OrderHasArms(p: Profile, movable: seq<int>, i: int)
    requires Armed(p, movable) && i in ForwardFirst(p, movable)
    ensures ArmOf(p, i).Some?
  {
    var order := ForwardFirst(p, movable);
    var ss := Resolve(p, movable);
    var xs := SortBy(ss, ArmDescending);
    var k :| 0 <= k < |order| && order[k] == i;
    SortHas(ss, ArmDescending, xs[k]);
    ResolveMember(p, movable, xs[k]);
  }

  lemma AheadByArm(p: Profile, movable: seq<int>, direction: Direction, src: int, dst: int)
    requires NoDup(movable) && Armed(p, movable) && src in ForwardFirst(p, movable) && dst in ForwardFirst(p, movable)
    requires ArmOf(p, src).Some? && ArmOf(p, dst).Some? && ArmOf(p, src).value != ArmOf(p, dst).value
    ensures Ahead(CourseOf(p, movable, direction), src, dst) <==> GainFt(p, direction, src, dst) > 0.0
  {
    var c := CourseOf(p, movable, direction);
    var x :| 0 <= x < |c.order| && c.order[x] == src;
    var y :| 0 <= y < |c.order| && c.order[y] == dst;
    OrderNoDup(p, movable);
    AheadAt(c, x, y);
    if ArmOf(p, src).value > ArmOf(p, dst).value {
      ForeIsEarlier(p, movable, x, y);
    } else {
      ForeIsEarlier(p, movable, y, x);
    }
  }

  /** With arms everywhere, a move is allowed exactly when it gains at least 0.05 ft and does not join row
      mates. */
  lemma AllowedByArm(p: Profile, movable: seq<int>, direction: Direction, src: int, dst: int)
    requires NoDup(movable) && Armed(p, movable) && src in ForwardFirst(p, movable) && dst in ForwardFirst(p, movable)
    ensures ArmOf(p, src).Some? && ArmOf(p, dst).Some?
    ensures Allowed(CourseOf(p, movable, direction), src, dst)
            <==> GainFt(p, direction, src, dst) >= 0.05 && !RowMates(p, movable, src, dst)
  {
    OrderHasArms(p, movable, src);
    OrderHasArms(p, movable, dst);
    if ArmOf(p, src).value != ArmOf(p, dst).value {
      AheadByArm(p, movable, direction, src, dst);
    }
  }

  /** Where an arm is missing, a move is allowed exactly when it goes down the indexes (aft: up), does not join
      row mates, and not two stations known to be on one arm. */
  lemma AllowedByIndex(p: Profile, movable: seq<int>, direction: Direction, src: int, dst: int)
    requires NoDup(movable) && !Armed(p, movable) && src in movable && dst in movable
    ensures Allowed(CourseOf(p, movable, direction), src, dst)
            <==> (if direction == Forward then dst < src else dst > src) && !RowMates(p, movable, src, dst)
                 && !(ArmOf(p, src).Some? && ArmOf(p, dst).Some? && -0.05 < GainFt(p, direction, src, dst) < 0.05)
  {
    var c := CourseOf(p, movable, direction);
    OrderNoDup(p, movable);
    SortHas(movable, Ascending, src);
    SortHas(movable, Ascending, dst);
    var x :| 0 <= x < |c.order| && c.order[x] == src;
    var y :| 0 <= y < |c.order| && c.order[y] == dst;
    AheadAt(c, x, y);
    if src < dst {
      ForeIsEarlier(p, movable, x, y);
    } else if dst < src {
      ForeIsEarlier(p, movable, y, x);
    }
  }

  // ---- one source's turn ----

  lemma MovesFromAppend(c: Course, src: int, a: seq<int>, b: seq<int>)
    ensures MovesFrom(c, src, a + b) == MovesFrom(c, src, a) + MovesFrom(c, src, b)
    decreases a
  {
    if a == [] {
      assert a + b == b;
    } else {
      assert (a + b)[1..] == a[1..] + b;
      MovesFromAppend(c, src, a[1..], b);
    }
  }

  /** The turn of `src` over the targets `ts`. */
  function Turn(s: Shift, cap: Load, minRetain: Load, c: Course, src: int, ts: seq<int>): Shift {
    Run(s, cap, minRetain, MovesFrom(c, src, ts))
  }

  lemma TurnElsewhere(s: Shift, cap: Load, minRetain: Load, c: Course, src: int, ts: seq<int>, i: int)
    requires i !in ts && i != src
    ensures At(Turn(s, cap, minRetain, c, src, ts).w, i) == At(s.w, i)
  {
    forall m <- MovesFrom(c, src, ts) ensures m.0 != i && m.1 != i {
      MovesFromHas(c, src, ts, m);
    }
    RunElsewhere(s, cap, minRetain, MovesFrom(c, src, ts), i);
  }

  /** Nothing more to give, or nothing more asked for. */
  predicate Over(s: Shift, minRetain: Load, src: int) {
    s.remaining <= 0.0 || Spare(s.w, minRetain, src) <= 0.0
  }

  lemma OverStays(s: Shift, cap: Load, minRetain: Load, c: Course, src: int, ts: seq<int>)
    requires Over(s, minRetain, src)
    ensures Turn(s, cap, minRetain, c, src, ts) == s
  {
    if s.remaining <= 0.0 {
      RunIdle(s, cap, minRetain, MovesFrom(c, src, ts));
    } else {
      RunSpent(s, cap, minRetain, c, src, ts);
    }
  }

  /** Trying a target leaves it full, or the source's turn is over. */
  lemma TryFills(s: Shift, cap: Load, minRetain: Load, c: Course, src: int, i: int)
    requires Allowed(c, src, i)
    ensures var t := Turn(s, cap, minRetain, c, src, [i]);
            At(t.w, i) >= At(cap, i) || Over(t, minRetain, src)
  {
    assert [i][1..] == [];
    var one: seq<Move> := [(src, i)];
    assert MovesFrom(c, src, [i]) == one;
    OneMoveRun(s, cap, minRetain, one);
  }

  lemma OneMoveRun(s: Shift, cap: Load, minRetain: Load, one: seq<Move>)
    requires |one| == 1
    ensures Run(s, cap, minRetain, one) == Step(s, cap, minRetain, one[0])
  {
    assert one[1..] == [];
  }

  lemma TurnSplits(s: Shift, cap: Load, minRetain: Load, c: Course, src: int, ts: seq<int>, k: nat)
    returns (u: Shift, v: Shift)
    requires k < |ts|
    ensures u == Turn(s, cap, minRetain, c, src, ts[..k])
    ensures v == Turn(u, cap, minRetain, c, src, [ts[k]])
    ensures Turn(s, cap, minRetain, c, src, ts) == Turn(v, cap, minRetain, c, src, ts[k + 1..])
  {
    u := Turn(s, cap, minRetain, c, src, ts[..k]);
    v := Turn(u, cap, minRetain, c, src, [ts[k]]);
    var a, b := ts[..k], [ts[k]];
    assert ts == (a + b) + ts[k + 1..];
    MovesFromAppend(c, src, a + b, ts[k + 1..]);
    MovesFromAppend(c, src, a, b);
    RunAppend(s, cap, minRetain, MovesFrom(c, src, a + b), MovesFrom(c, src, ts[k + 1..]));
    RunAppend(s, cap, minRetain, MovesFrom(c, src, a), MovesFrom(c, src, b));
  }

  /** When a source's turn ends, each target it may feed is full, or the turn is over. */
  lemma TurnFills(s: Shift, cap: Load, minRetain: Load, c: Course, src: int, ts: seq<int>, i: int)
    requires NoDup(ts) && i in ts && Allowed(c, src, i)
    ensures var t := Turn(s, cap, minRetain, c, src, ts);
            At(t.w, i) >= At(cap, i) || Over(t, minRetain, src)
  {
    var k :| 0 <= k < |ts| && ts[k] == i;
    var u, v := TurnSplits(s, cap, minRetain, c, src, ts, k);
    TryFills(u, cap, minRetain, c, src, i);
    if Over(v, minRetain, src) {
      OverStays(v, cap, minRetain, c, src, ts[k + 1..]);
    } else {
      TurnElsewhere(v, cap, minRetain, c, src, ts[k + 1..], i);
    }
  }

  /** A target that gains has every target before it full. */
  lemma TurnServesFirst(s: Shift, cap: Load, minRetain: Load, c: Course, src: int, ts: seq<int>, i: int, j: int)
    requires NoDup(ts) && Precedes(ts, i, j) && Allowed(c, src, i) && j != src
    requires At(Turn(s, cap, minRetain, c, src, ts).w, j) > At(s.w, j)
    ensures At(Turn(s, cap, minRetain, c, src, ts).w, i) >= At(cap, i)
  {
    var k, l :| 0 <= k < l < |ts| && ts[k] == i && ts[l] == j;
    var u, v := TurnSplits(s, cap, minRetain, c, src, ts, k);
    TurnElsewhere(s, cap, minRetain, c, src, ts[..k], j);
    TurnElsewhere(u, cap, minRetain, c, src, [i], j);
    TryFills(u, cap, minRetain, c, src, i);
    if Over(v, minRetain, src) {
      OverStays(v, cap, minRetain, c, src, ts[k + 1..]);
    }
    TurnElsewhere(v, cap, minRetain, c, src, ts[k + 1..], i);
  }

  // ---- every turn of a shift ----

  /** State of a shift when the first `k` sources have had their turn. */
  function Turns(w: Load, p: Profile, movable: seq<int>, direction: Direction, amountLb: real,
                 minRetain: Load, softMax: Load, deferred: set<int>, k: nat): Shift
    requires k <= |Sources(ForwardFirst(p, movable), direction)|
  {
    var c := CourseOf(p, movable, direction);
    Run(Shift(w, Max(0.0, RoundLb(amountLb)), 0.0), ShiftCaps(p, softMax, movable), minRetain,
        AllMoves(c, Sources(c.order, direction)[..k], Targets(c.order, direction, deferred)))
  }

  lemma AllMovesAppend(c: Course, a: seq<int>, b: seq<int>, targets: seq<int>)
    ensures AllMoves(c, a + b, targets) == AllMoves(c, a, targets) + AllMoves(c, b, targets)
    decreases a
  {
    if a == [] {
      assert a + b == b;
    } else {
      assert (a + b)[1..] == a[1..] + b;
      AllMovesAppend(c, a[1..], b, targets);
    }
  }

  lemma NextTurn(w: Load, p: Profile, movable: seq<int>, direction: Direction, amountLb: real,
                 minRetain: Load, softMax: Load, deferred: set<int>, k: nat)
    requires k < |Sources(ForwardFirst(p, movable), direction)|
    ensures var c := CourseOf(p, movable, direction);
            Turns(w, p, movable, direction, amountLb, minRetain, softMax, deferred, k + 1)
            == Turn(Turns(w, p, movable, direction, amountLb, minRetain, softMax, deferred, k), ShiftCaps(p, softMax, movable),
                    minRetain, c, Sources(c.order, direction)[k], Targets(c.order, direction, deferred))
  {
    var c := CourseOf(p, movable, direction);
    SourceTurn(Shift(w, Max(0.0, RoundLb(amountLb)), 0.0), ShiftCaps(p, softMax, movable), minRetain, c,
               Sources(c.order, direction), Targets(c.order, direction, deferred), k);
  }

  /** One more source takes one more turn. */
  lemma SourceTurn(s: Shift, cap: Load, minRetain: Load, c: Course, sources: seq<int>, targets: seq<int>, k: nat)
    requires k < |sources|
    ensures Run(s, cap, minRetain, AllMoves(c, sources[..k + 1], targets))
         == Turn(Run(s, cap, minRetain, AllMoves(c, sources[..k], targets)), cap, minRetain, c, sources[k], targets)
  {
    assert sources[..k + 1] == sources[..k] + [sources[k]];
    AllMovesAppend(c, sources[..k], [sources[k]], targets);
    OneSourceMoves(c, sources[k], targets);
    RunAppend(s, cap, minRetain, AllMoves(c, sources[..k], targets), MovesFrom(c, sources[k], targets));
  }

  lemma OneSourceMoves(c: Course, src: int, targets: seq<int>)
    ensures AllMoves(c, [src], targets) == MovesFrom(c, src, targets)
  {
    assert [src][1..] == [];
    assert AllMoves(c, [], targets) == [];
  }

  lemma TargetsNoDup(order: seq<int>, direction: Direction, deferred: set<int>)
    requires NoDup(order)
    ensures NoDup(Targets(order, direction, deferred))
  {
    FilterNoDup(order, deferred);
    if direction == Forward {
      var a, b := Without(order, deferred), Only(order, deferred);
      forall j, k | 0 <= j < k < |a + b| ensures (a + b)[j] != (a + b)[k] {
        WithoutHas(order, deferred, (a + b)[j]);
        WithoutHas(order, deferred, (a + b)[k]);
        assert j < |a| ==> a[j] in a;
        assert k >= |a| ==> b[k - |a|] in b;
      }
    }
  }

  lemma FilterNoDup(s: seq<int>, deferred: set<int>)
    requires NoDup(s)
    ensures NoDup(Without(s, deferred)) && NoDup(Only(s, deferred))
  {
    if s != [] {
      FilterNoDup(s[1..], deferred);
      WithoutHas(s[1..], deferred, s[0]);
    }
  }

  /** In every turn, a station that gains has every preferred station that the source may feed full when the
      turn ends. */
  lemma EveryTurnServesFirst(w: Load, p: Profile, movable: seq<int>, direction: Direction, amountLb: real,
                             minRetain: Load, softMax: Load, deferred: set<int>, k: nat, i: int, j: int)
    requires NoDup(movable) && k < |Sources(ForwardFirst(p, movable), direction)|
    requires var c := CourseOf(p, movable, direction);
             var src := Sources(c.order, direction)[k];
             && i in c.order && j in c.order && j != src && Allowed(c, src, i)
             && Preferred(p, movable, direction, deferred, i, j)
    requires At(Turns(w, p, movable, direction, amountLb, minRetain, softMax, deferred, k + 1).w, j)
             > At(Turns(w, p, movable, direction, amountLb, minRetain, softMax, deferred, k).w, j)
    ensures At(Turns(w, p, movable, direction, amountLb, minRetain, softMax, deferred, k + 1).w, i)
            >= At(ShiftCaps(p, softMax, movable), i)
  {
    var c := CourseOf(p, movable, direction);
    OrderNoDup(p, movable);
    TargetsNoDup(c.order, direction, deferred);
    PreferredPrecedes(p, movable, direction, deferred, i, j);
    NextTurn(w, p, movable, direction, amountLb, minRetain, softMax, deferred, k);
    TurnServesFirst(Turns(w, p, movable, direction, amountLb, minRetain, softMax, deferred, k), ShiftCaps(p, softMax, movable),
                    minRetain, c, Sources(c.order, direction)[k], Targets(c.order, direction, deferred), i, j);
  }

  // ---- one station above its floor ----

  lemma TurnIdle(s: Shift, cap: Load, minRetain: Load, c: Course, q: int, ts: seq<int>)
    requires s.remaining <= 0.0 || Spare(s.w, minRetain, q) <= 0.0
             || forall k <- ts :: Allowed(c, q, k) ==> At(s.w, k) >= At(cap, k)
    ensures Turn(s, cap, minRetain, c, q, ts) == s
    decreases ts
  {
    if s.remaining <= 0.0 || Spare(s.w, minRetain, q) <= 0.0 {
      OverStays(s, cap, minRetain, c, q, ts);
    } else if ts != [] {
      assert ts[0] in ts && ts == [ts[0]] + ts[1..];
      TurnIdle(s, cap, minRetain, c, q, ts[1..]);
      MovesFromAppend(c, q, [ts[0]], ts[1..]);
      assert [ts[0]][1..] == [];
      RunAppend(s, cap, minRetain, MovesFrom(c, q, [ts[0]]), MovesFrom(c, q, ts[1..]));
      if Allowed(c, q, ts[0]) {
        assert MovesFrom(c, q, [ts[0]]) == [(q, ts[0])] && [(q, ts[0])][1..] == [];
      }
    }
  }

  ghost predicate AllIdle(s: Shift, cap: Load, minRetain: Load, c: Course, sources: seq<int>, ts: seq<int>) {
    s.remaining <= 0.0 || forall q <- sources :: Spare(s.w, minRetain, q) <= 0.0
                                               || forall k <- ts :: Allowed(c, q, k) ==> At(s.w, k) >= At(cap, k)
  }

  lemma TurnsIdle(s: Shift, cap: Load, minRetain: Load, c: Course, sources: seq<int>, ts: seq<int>)
    requires AllIdle(s, cap, minRetain, c, sources, ts)
    ensures Run(s, cap, minRetain, AllMoves(c, sources, ts)) == s
    decreases sources
  {
    if sources != [] {
      assert sources[0] in sources && sources == [sources[0]] + sources[1..];
      TurnIdle(s, cap, minRetain, c, sources[0], ts);
      RunAppend(s, cap, minRetain, MovesFrom(c, sources[0], ts), AllMoves(c, sources[1..], ts));
      TurnsIdle(s, cap, minRetain, c, sources[1..], ts);
    }
  }

  /** What the turn takes from the amount it takes from the source. */
  lemma TurnDraws(s: Shift, cap: Load, minRetain: Load, c: Course, src: int, ts: seq<int>)
    requires s.remaining >= 0.0
    ensures var t := Turn(s, cap, minRetain, c, src, ts);
            At(s.w, src) - At(t.w, src) == s.remaining - t.remaining >= 0.0
    decreases ts
  {
    if ts != [] {
      MovesFromAppend(c, src, [ts[0]], ts[1..]);
      assert ts == [ts[0]] + ts[1..] && [ts[0]][1..] == [];
      RunAppend(s, cap, minRetain, MovesFrom(c, src, [ts[0]]), MovesFrom(c, src, ts[1..]));
      if Allowed(c, src, ts[0]) {
        assert MovesFrom(c, src, [ts[0]]) == [(src, ts[0])] && [(src, ts[0])][1..] == [];
      }
      TurnDraws(Turn(s, cap, minRetain, c, src, [ts[0]]), cap, minRetain, c, src, ts[1..]);
    }
  }

  /** Only one station has more than its floor. */
  ghost predicate OneSource(w: Load, movable: seq<int>, minRetain: Load, src: int) {
    forall k <- movable :: k != src ==> At(w, k) <= Floor(minRetain, k)
  }

  /** Which stations a turn can leave able to feed others: those that gained, and only into targets before
      them. */
  lemma AfterOneSource(s: Shift, t: Shift, cap: Load, minRetain: Load, c: Course, src: int, ts: seq<int>, q: int, k: int)
    requires NoDup(ts) && Chains(c) && src in c.order && q in c.order && k in c.order && (forall x <- ts :: x in c.order)
    requires t == Turn(s, cap, minRetain, c, src, ts) && q != src && At(s.w, q) <= Floor(minRetain, q) && s.remaining >= 0.0
    requires t.remaining > 0.0 && Spare(t.w, minRetain, q) > 0.0 && Allowed(c, q, k) && k in ts
    requires s.remaining <= Spare(s.w, minRetain, src) || Precedes(ts, k, q)
    ensures At(t.w, k) >= At(cap, k)
  {
    assert At(t.w, q) > At(s.w, q);
    assert q in ts by {
      if q !in ts {
        TurnElsewhere(s, cap, minRetain, c, src, ts, q);
      }
    }
    assert Allowed(c, src, q) by {
      GainerIsAllowed(s, cap, minRetain, c, src, ts, q);
    }
    assert Allowed(c, src, k);
    if s.remaining <= Spare(s.w, minRetain, src) {
      TurnFills(s, cap, minRetain, c, src, ts, k);
      TurnDraws(s, cap, minRetain, c, src, ts);
    } else {
      TurnServesFirst(s, cap, minRetain, c, src, ts, k, q);
    }
  }

  lemma GainerIsAllowed(s: Shift, cap: Load, minRetain: Load, c: Course, src: int, ts: seq<int>, q: int)
    requires q != src && At(Turn(s, cap, minRetain, c, src, ts).w, q) > At(s.w, q)
    ensures Allowed(c, src, q)
  {
    if !Allowed(c, src, q) {
      forall m <- MovesFrom(c, src, ts) ensures m.0 != q && m.1 != q {
        MovesFromHas(c, src, ts, m);
      }
      RunElsewhere(s, cap, minRetain, MovesFrom(c, src, ts), q);
    }
  }

  /** One source with more than its floor: the turns before its own do nothing. */
  lemma OthersWait(s: Shift, cap: Load, minRetain: Load, c: Course, sources: seq<int>, ts: seq<int>, src: int)
    requires src !in sources && forall q <- sources :: At(s.w, q) <= Floor(minRetain, q)
    ensures Run(s, cap, minRetain, AllMoves(c, sources, ts)) == s
  {
    forall q <- sources ensures Spare(s.w, minRetain, q) <= 0.0 {
    }
    TurnsIdle(s, cap, minRetain, c, sources, ts);
  }

  /** Nor do the turns after it, unless deferral has sent payload past an open station. */
  lemma OneTurnOnly(s: Shift, cap: Load, minRetain: Load, c: Course, sources: seq<int>, ts: seq<int>, src: int, m: nat)
    requires Chains(c) && NoDup(sources) && NoDup(ts) && m < |sources| && sources[m] == src && s.remaining >= 0.0
    requires (forall x <- ts :: x in c.order) && (forall x <- sources :: x in c.order)
    requires forall q <- sources :: q != src ==> At(s.w, q) <= Floor(minRetain, q)
    requires s.remaining <= Spare(s.w, minRetain, src)
             || forall q <- sources, k <- ts :: Allowed(c, q, k) && q in ts ==> Precedes(ts, k, q)
    ensures Run(s, cap, minRetain, AllMoves(c, sources, ts)) == Turn(s, cap, minRetain, c, src, ts)
  {
    var before, after := sources[..m], sources[m + 1..];
    assert sources == before + ([src] + after);
    AllMovesAppend(c, before, [src] + after, ts);
    AllMovesAppend(c, [src], after, ts);
    assert [src][1..] == [] && AllMoves(c, [src], ts) == MovesFrom(c, src, ts) + AllMoves(c, [], ts);
    assert AllMoves(c, [src], ts) == MovesFrom(c, src, ts);
    RunAppend(s, cap, minRetain, AllMoves(c, before, ts), MovesFrom(c, src, ts) + AllMoves(c, after, ts));
    RunAppend(s, cap, minRetain, MovesFrom(c, src, ts), AllMoves(c, after, ts));
    OthersWait(s, cap, minRetain, c, before, ts, src);
    LaterTurnsIdle(s, cap, minRetain, c, sources, ts, src, m);
  }

  lemma LaterTurnsIdle(s: Shift, cap: Load, minRetain: Load, c: Course, sources: seq<int>, ts: seq<int>, src: int, m: nat)
    requires Chains(c) && NoDup(sources) && NoDup(ts) && m < |sources| && sources[m] == src && s.remaining >= 0.0
    requires (forall x <- ts :: x in c.order) && (forall x <- sources :: x in c.order)
    requires forall q <- sources :: q != src ==> At(s.w, q) <= Floor(minRetain, q)
    requires s.remaining <= Spare(s.w, minRetain, src)
             || forall q <- sources, k <- ts :: Allowed(c, q, k) && q in ts ==> Precedes(ts, k, q)
    ensures var t := Turn(s, cap, minRetain, c, src, ts);
            Run(t, cap, minRetain, AllMoves(c, sources[m + 1..], ts)) == t
  {
    var t := Turn(s, cap, minRetain, c, src, ts);
    var after := sources[m + 1..];
    if t.remaining > 0.0 {
      forall q <- after
        ensures Spare(t.w, minRetain, q) <= 0.0 || forall k <- ts :: Allowed(c, q, k) ==> At(t.w, k) >= At(cap, k)
      {
        assert q in sources && q != src;
        if Spare(t.w, minRetain, q) > 0.0 {
          forall k <- ts | Allowed(c, q, k) ensures At(t.w, k) >= At(cap, k) {
            assert q in ts by {
              if q !in ts {
                TurnElsewhere(s, cap, minRetain, c, src, ts, q);
              }
            }
            AfterOneSource(s, t, cap, minRetain, c, src, ts, q, k);
          }
        }
      }
    }
    TurnsIdle(t, cap, minRetain, c, after, ts);
  }

  /** Without deferral a source comes after everything it may feed. */
  lemma TargetsLead(c: Course, q: int, k: int)
    requires NoDup(c.order) && q in c.order && k in c.order && Allowed(c, q, k)
    ensures Precedes(Targets(c.order, c.direction, {}), k, q)
  {
    var x :| 0 <= x < |c.order| && c.order[x] == q;
    var y :| 0 <= y < |c.order| && c.order[y] == k;
    AheadAt(c, x, y);
    if c.direction == Aft {
      assert Precedes(c.order, q, k);
      ReversedPrecedes(c.order, q, k);
    }
  }

  lemma UndeferredLeads(c: Course, deferred: set<int>, sources: seq<int>, ts: seq<int>)
    requires NoDup(c.order) && ts == Targets(c.order, c.direction, deferred) && (deferred == {} || c.direction == Aft)
    requires forall x <- sources :: x in c.order
    ensures forall q <- sources, k <- ts :: Allowed(c, q, k) && q in ts ==> Precedes(ts, k, q)
  {
    assert ts == Targets(c.order, c.direction, {});
    forall q <- sources, k <- ts | Allowed(c, q, k) && q in ts ensures Precedes(ts, k, q) {
      TargetsHas(c.order, c.direction, {}, k);
      TargetsHas(c.order, c.direction, {}, q);
      TargetsLead(c, q, k);
    }
  }

  /** A shift is the turn of its one source. */
  lemma ShiftIsOneTurn(w: Load, p: Profile, movable: seq<int>, direction: Direction, amountLb: real,
                       minRetain: Load, softMax: Load, deferred: set<int>, src: int)
    requires NoDup(movable) && |movable| >= 2 && RoundLb(amountLb) > 0.0 && Rows(p, movable) == []
    requires Chains(CourseOf(p, movable, direction)) && src in ForwardFirst(p, movable) && OneSource(w, movable, minRetain, src)
    requires RoundLb(amountLb) <= Spare(w, minRetain, src) || deferred == {} || direction == Aft
    ensures var c := CourseOf(p, movable, direction);
            Shifted(w, p, movable, direction, amountLb, minRetain, softMax, deferred)
            == Turn(Shift(w, RoundLb(amountLb), 0.0), ShiftCaps(p, softMax, movable), minRetain, c, src,
                    Targets(c.order, direction, deferred)).w
  {
    var c := CourseOf(p, movable, direction);
    var sources, ts := Sources(c.order, direction), Targets(c.order, direction, deferred);
    var m := Listing(p, movable, direction, deferred, src);
    forall q <- sources ensures q != src ==> At(w, q) <= Floor(minRetain, q) {
      OrderMembers(p, movable, q);
    }
    if deferred == {} || direction == Aft {
      UndeferredLeads(c, deferred, sources, ts);
    }
    OneTurnOnly(Shift(w, RoundLb(amountLb), 0.0), ShiftCaps(p, softMax, movable), minRetain, c, sources, ts, src, m);
    NoRowsNoBalance(w, p, movable, direction, amountLb, minRetain, softMax, deferred);
  }

  lemma Listing(p: Profile, movable: seq<int>, direction: Direction, deferred: set<int>, src: int) returns (m: nat)
    requires NoDup(movable) && src in ForwardFirst(p, movable)
    ensures var order := ForwardFirst(p, movable);
            var sources, ts := Sources(order, direction), Targets(order, direction, deferred);
            && NoDup(order) && NoDup(sources) && NoDup(ts) && (forall x <- ts :: x in order) && (forall x <- sources :: x in order)
            && m < |sources| && sources[m] == src
  {
    var c := CourseOf(p, movable, direction);
    var sources, ts := Sources(c.order, direction), Targets(c.order, direction, deferred);
    OrderNoDup(p, movable);
    TargetsNoDup(c.order, direction, deferred);
    SourcesSuccessive(c);
    TargetsHas(c.order, direction, deferred, src);
    m :| 0 <= m < |sources| && sources[m] == src;
    forall x <- ts ensures x in c.order { TargetsHas(c.order, direction, deferred, x); }
    forall x <- sources ensures x in c.order { TargetsHas(c.order, direction, deferred, x); }
  }

  lemma NoRowsNoBalance(w: Load, p: Profile, movable: seq<int>, direction: Direction, amountLb: real,
                        minRetain: Load, softMax: Load, deferred: set<int>)
    requires |movable| >= 2 && RoundLb(amountLb) > 0.0 && Rows(p, movable) == []
    ensures Shifted(w, p, movable, direction, amountLb, minRetain, softMax, deferred)
         == Run(Shift(w, RoundLb(amountLb), 0.0), ShiftCaps(p, softMax, movable), minRetain, MovesOf(p, movable, direction, deferred)).w
  {
  }

  /** A shift with one station above its floor fills preferred stations first: whoever gained has every
      preferred station that may be fed full. Going forward, a deferred seat gains only when all others are
      full. */
  lemma ShiftServesFirst(w: Load, p: Profile, movable: seq<int>, direction: Direction, amountLb: real,
                         minRetain: Load, softMax: Load, deferred: set<int>, src: int, i: int, j: int)
    requires NoDup(movable) && |movable| >= 2 && RoundLb(amountLb) > 0.0 && Rows(p, movable) == []
    requires Chains(CourseOf(p, movable, direction)) && OneSource(w, movable, minRetain, src)
    requires RoundLb(amountLb) <= Spare(w, minRetain, src) || deferred == {} || direction == Aft
    requires var order := ForwardFirst(p, movable); src in order && i in order && j in order && j != src
    requires Allowed(CourseOf(p, movable, direction), src, i) && Preferred(p, movable, direction, deferred, i, j)
    requires At(Shifted(w, p, movable, direction, amountLb, minRetain, softMax, deferred), j) > At(w, j)
    ensures At(Shifted(w, p, movable, direction, amountLb, minRetain, softMax, deferred), i) >= At(ShiftCaps(p, softMax, movable), i)
  {
    var c := CourseOf(p, movable, direction);
    ShiftIsOneTurn(w, p, movable, direction, amountLb, minRetain, softMax, deferred, src);
    OrderNoDup(p, movable);
    TargetsNoDup(c.order, direction, deferred);
    PreferredPrecedes(p, movable, direction, deferred, i, j);
    TurnServesFirst(Shift(w, RoundLb(amountLb), 0.0), ShiftCaps(p, softMax, movable), minRetain, c, src,
                    Targets(c.order, direction, deferred), i, j);
  }

  // ---- one station with room ----

  /** Every station the remaining sources may feed is full, but for `dst`. */
  ghost predicate OnlyRoomAt(s: Shift, cap: Load, c: Course, sources: seq<int>, ts: seq<int>, dst: int) {
    forall q <- sources, k <- ts :: Allowed(c, q, k) && k != dst ==> At(s.w, k) >= At(cap, k)
  }

  lemma LoneTurnAt(s: Shift, cap: Load, minRetain: Load, c: Course, q: int, ts: seq<int>, dst: int, k: int)
    requires forall t <- ts :: Allowed(c, q, t) && t != dst ==> At(s.w, t) >= At(cap, t)
    requires k != dst && k != q
    ensures At(Turn(s, cap, minRetain, c, q, ts).w, k) == At(s.w, k)
    decreases ts
  {
    if ts != [] {
      assert ts[0] in ts && ts == [ts[0]] + ts[1..];
      var u := OneTry(s, cap, minRetain, c, q, ts);
      forall t <- ts[1..] | Allowed(c, q, t) && t != dst ensures At(u.w, t) >= At(cap, t) {
        assert t != q;
      }
      LoneTurnAt(u, cap, minRetain, c, q, ts[1..], dst, k);
    }
  }

  /** The first target of a turn: what it does to the weights, and the turn that is left. */
  lemma OneTry(s: Shift, cap: Load, minRetain: Load, c: Course, q: int, ts: seq<int>) returns (u: Shift)
    requires ts != []
    ensures Turn(s, cap, minRetain, c, q, ts) == Turn(u, cap, minRetain, c, q, ts[1..])
    ensures forall k | k != q :: At(u.w, k) == At(s.w, k) || (k == ts[0] && Allowed(c, q, k) && At(s.w, k) < At(cap, k))
  {
    u := Turn(s, cap, minRetain, c, q, [ts[0]]);
    assert ts == [ts[0]] + ts[1..] && [ts[0]][1..] == [];
    MovesFromAppend(c, q, [ts[0]], ts[1..]);
    RunAppend(s, cap, minRetain, MovesFrom(c, q, [ts[0]]), MovesFrom(c, q, ts[1..]));
    if Allowed(c, q, ts[0]) {
      var one: seq<Move> := [(q, ts[0])];
      assert MovesFrom(c, q, [ts[0]]) == one;
      OneMoveRun(s, cap, minRetain, one);
    }
  }

  lemma LoneTurn(s: Shift, cap: Load, minRetain: Load, c: Course, sources: seq<int>, ts: seq<int>, dst: int)
    requires sources != [] && OnlyRoomAt(s, cap, c, sources, ts, dst)
    ensures forall k | k != dst && k != sources[0] :: At(Turn(s, cap, minRetain, c, sources[0], ts).w, k) == At(s.w, k)
  {
    assert sources[0] in sources;
    forall k | k != dst && k != sources[0] ensures At(Turn(s, cap, minRetain, c, sources[0], ts).w, k) == At(s.w, k) {
      LoneTurnAt(s, cap, minRetain, c, sources[0], ts, dst, k);
    }
  }

  lemma LoneTurnKeeps(s: Shift, cap: Load, minRetain: Load, c: Course, sources: seq<int>, ts: seq<int>, dst: int)
    requires sources != [] && Successive(c, sources) && OnlyRoomAt(s, cap, c, sources, ts, dst)
    ensures OnlyRoomAt(Turn(s, cap, minRetain, c, sources[0], ts), cap, c, sources[1..], ts, dst)
    ensures Successive(c, sources[1..])
  {
    LoneTurn(s, cap, minRetain, c, sources, ts, dst);
    var t := Turn(s, cap, minRetain, c, sources[0], ts);
    forall q <- sources[1..], k <- ts | Allowed(c, q, k) && k != dst ensures At(t.w, k) >= At(cap, k) {
      var x :| 0 <= x < |sources[1..]| && sources[1..][x] == q;
      assert sources[x + 1] == q && q in sources && Ahead(c, sources[0], q);
    }
  }

  lemma LoneRun(s: Shift, cap: Load, minRetain: Load, c: Course, sources: seq<int>, ts: seq<int>, dst: int)
    requires Successive(c, sources) && OnlyRoomAt(s, cap, c, sources, ts, dst)
    ensures forall k | k != dst && k !in sources :: At(Run(s, cap, minRetain, AllMoves(c, sources, ts)).w, k) == At(s.w, k)
    ensures s.remaining <= 0.0 || At(s.w, dst) >= At(cap, dst) ==> Run(s, cap, minRetain, AllMoves(c, sources, ts)) == s
    decreases sources
  {
    if s.remaining <= 0.0 || At(s.w, dst) >= At(cap, dst) {
      TurnsIdle(s, cap, minRetain, c, sources, ts);
    } else if sources != [] {
      assert sources == [sources[0]] + sources[1..];
      var t := Turn(s, cap, minRetain, c, sources[0], ts);
      RunAppend(s, cap, minRetain, MovesFrom(c, sources[0], ts), AllMoves(c, sources[1..], ts));
      LoneTurn(s, cap, minRetain, c, sources, ts, dst);
      LoneTurnKeeps(s, cap, minRetain, c, sources, ts, dst);
      LoneRun(t, cap, minRetain, c, sources[1..], ts, dst);
    }
  }

  /** Whoever gives has every source before it that may feed the open station down at its floor. */
  lemma LoneRunDrainsFirst(s: Shift, cap: Load, minRetain: Load, c: Course, sources: seq<int>, ts: seq<int>, dst: int, i: int, j: int)
    requires Successive(c, sources) && NoDup(ts) && OnlyRoomAt(s, cap, c, sources, ts, dst) && dst in ts
    requires Precedes(sources, i, j) && Allowed(c, i, dst) && j != dst
    requires At(Run(s, cap, minRetain, AllMoves(c, sources, ts)).w, j) < At(s.w, j)
    ensures At(Run(s, cap, minRetain, AllMoves(c, sources, ts)).w, i) <= Floor(minRetain, i)
    decreases sources
  {
    PrecedesTail(sources, i, j);
    assert sources == [sources[0]] + sources[1..];
    var q := sources[0];
    var t := Turn(s, cap, minRetain, c, q, ts);
    RunAppend(s, cap, minRetain, MovesFrom(c, q, ts), AllMoves(c, sources[1..], ts));
    LoneTurn(s, cap, minRetain, c, sources, ts, dst);
    LoneTurnKeeps(s, cap, minRetain, c, sources, ts, dst);
    assert q !in sources[1..];
    if Precedes(sources[1..], i, j) {
      assert j != q;
      LoneRunDrainsFirst(t, cap, minRetain, c, sources[1..], ts, dst, i, j);
    } else {
      TurnFills(s, cap, minRetain, c, q, ts, dst);
      LoneRun(t, cap, minRetain, c, sources[1..], ts, dst);
    }
  }

  /** With room on one station only, a shift drains the stations furthest back first: whoever gave has every
      station behind it that may feed the open one down at its floor. */
  lemma ShiftDrainsLastFirst(w: Load, p: Profile, movable: seq<int>, direction: Direction, amountLb: real,
                             minRetain: Load, softMax: Load, deferred: set<int>, dst: int, i: int, j: int)
    requires NoDup(movable) && Rows(p, movable) == []
    requires forall k <- movable :: k != dst ==> At(w, k) >= At(ShiftCaps(p, softMax, movable), k)
    requires var order := ForwardFirst(p, movable); dst in order && i in order && j in order && j != dst
    requires Allowed(CourseOf(p, movable, direction), i, dst)
    requires if direction == Forward then Fore(p, movable, j, i) else Fore(p, movable, i, j)
    requires At(Shifted(w, p, movable, direction, amountLb, minRetain, softMax, deferred), j) < At(w, j)
    ensures At(Shifted(w, p, movable, direction, amountLb, minRetain, softMax, deferred), i) <= Floor(minRetain, i)
  {
    var c := CourseOf(p, movable, direction);
    var sources, ts := Sources(c.order, direction), Targets(c.order, direction, deferred);
    var cap := ShiftCaps(p, softMax, movable);
    var start := Shift(w, Max(0.0, RoundLb(amountLb)), 0.0);
    OrderNoDup(p, movable);
    TargetsNoDup(c.order, direction, deferred);
    SourcesSuccessive(c);
    SourcesPrecede(p, movable, direction, i, j);
    assert dst in ts by { TargetsHas(c.order, direction, deferred, dst); }
    assert OnlyRoomAt(start, cap, c, sources, ts, dst) by {
      forall k <- ts ensures k in movable {
        TargetsHas(c.order, direction, deferred, k);
        OrderMembers(p, movable, k);
      }
    }
    LoneRunDrainsFirst(start, cap, minRetain, c, sources, ts, dst, i, j);
  }

  lemma SourcesPrecede(p: Profile, movable: seq<int>, direction: Direction, i: int, j: int)
    requires var order := ForwardFirst(p, movable); i in order && j in order
    requires if direction == Forward then Fore(p, movable, j, i) else Fore(p, movable, i, j)
    ensures Precedes(Sources(ForwardFirst(p, movable), direction), i, j)
  {
    var order := ForwardFirst(p, movable);
    if direction == Forward {
      ForePrecedes(p, movable, j, i);
      ReversedPrecedes(order, j, i);
    } else {
      ForePrecedes(p, movable, i, j);
    }
  }
}

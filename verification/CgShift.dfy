/** Moving payload toward the nose or the tail: `shiftCargoForCg`. The two nested loops of the
    source amount to one greedy pass over a list of allowed (source, target) moves. */
module {:induction false} CgShift {
  import opened Options
  import opened Weights
  import opened Stations
  import opened Sorting
  import opened WaterFill
  import opened LateralRows

  datatype Direction = Forward | Aft

  function AllHaveArms(ss: seq<Station>): bool {
    forall s <- ss :: s.arm.Some?
  }

  /** Movable indexes from nose to tail: by descending arm when every known station has one,
      else by ascending index. */
  function ForwardFirst(p: Profile, ids: seq<int>): seq<int> {
    var ss := Resolve(p, ids);
    if |ss| > 0 && AllHaveArms(ss) then Indexes(SortBy(ss, ArmDescending)) else SortBy(ids, Ascending)
  }

  function Reversed(s: seq<int>): (r: seq<int>)
    ensures |r| == |s|
    ensures forall k | 0 <= k < |s| :: r[k] == s[|s| - 1 - k]
  {
    seq(|s|, k requires 0 <= k < |s| => s[|s| - 1 - k])
  }

  function IndexOf(s: seq<int>, x: int): int {
    if s == [] then -1
    else if s[0] == x then 0
    else if IndexOf(s[1..], x) < 0 then -1
    else IndexOf(s[1..], x) + 1
  }

  /** The fixed part of one shift: who is movable in which order, the rows, and the way to go. */
  datatype Course = Course(p: Profile, order: seq<int>, rows: seq<Row>, direction: Direction)

  predicate Ahead(c: Course, src: int, dst: int) {
    match c.direction
    case Forward => IndexOf(c.order, dst) < IndexOf(c.order, src)
    case Aft => IndexOf(c.order, dst) > IndexOf(c.order, src)
  }

  predicate SameArm(p: Profile, i: int, j: int) {
    ArmOf(p, i).Some? && ArmOf(p, j).Some? && Abs(ArmOf(p, i).value - ArmOf(p, j).value) < 0.05
  }

  /** Moves that change the centre of gravity the right way: not to a row mate, not sideways. */
  predicate Allowed(c: Course, src: int, dst: int) {
    && src != dst && Ahead(c, src, dst)
    && (src, dst) !in c.rows && (dst, src) !in c.rows
    && !SameArm(c.p, src, dst)
  }

  type Move = (int, int)

  function MovesFrom(c: Course, src: int, targets: seq<int>): seq<Move> {
    if targets == [] then []
    else (if Allowed(c, src, targets[0]) then [(src, targets[0])] else []) + MovesFrom(c, src, targets[1..])
  }

  function AllMoves(c: Course, sources: seq<int>, targets: seq<int>): seq<Move> {
    if sources == [] then []
    else MovesFrom(c, sources[0], targets) + AllMoves(c, sources[1..], targets)
  }

  datatype Shift = Shift(w: Load, remaining: real, moved: real)

  function Floor(minRetain: Load, i: int): real {
    Max(0.0, At(minRetain, i))
  }

  function Spare(w: Load, minRetain: Load, i: int): real {
    Max(0.0, At(w, i) - Floor(minRetain, i))
  }

  /** As much as is still asked for, the source can spare, and the target can take. */
  function MoveSize(s: Shift, cap: Load, minRetain: Load, m: Move): real {
    Min(s.remaining, Min(Spare(s.w, minRetain, m.0), Max(0.0, At(cap, m.1) - At(s.w, m.1))))
  }

  function Step(s: Shift, cap: Load, minRetain: Load, m: Move): Shift {
    var d := MoveSize(s, cap, minRetain, m);
    if d <= 0.0 then s else Shift(Transfer(s.w, m.0, m.1, d), s.remaining - d, s.moved + d)
  }

  function Run(s: Shift, cap: Load, minRetain: Load, moves: seq<Move>): Shift
    decreases moves
  {
    if moves == [] then s else Run(Step(s, cap, minRetain, moves[0]), cap, minRetain, moves[1..])
  }

  function ShiftCaps(p: Profile, softMax: Load, ids: seq<int>): Load {
    map i | i in ids :: if Known(p, i) then EffectiveCap(p, softMax, i) else 0.0
  }

  function Without(s: seq<int>, deferred: set<int>): seq<int> {
    if s == [] then []
    else (if s[0] in deferred then [] else [s[0]]) + Without(s[1..], deferred)
  }

  function Only(s: seq<int>, deferred: set<int>): seq<int> {
    if s == [] then []
    else (if s[0] in deferred then [s[0]] else []) + Only(s[1..], deferred)
  }

  function Sources(order: seq<int>, direction: Direction): seq<int> {
    if direction == Forward then Reversed(order) else order
  }

  /** Nose-first (or tail-first) targets; going forward, the deferred ones come last. */
  function Targets(order: seq<int>, direction: Direction, deferred: set<int>): seq<int> {
    if direction == Aft then Reversed(order)
    else if deferred != {} then Without(order, deferred) + Only(order, deferred)
    else order
  }

  function CourseOf(p: Profile, movable: seq<int>, direction: Direction): Course {
    Course(p, ForwardFirst(p, movable), Rows(p, movable), direction)
  }

  function MovesOf(p: Profile, movable: seq<int>, direction: Direction, deferred: set<int>): seq<Move> {
    var c := CourseOf(p, movable, direction);
    AllMoves(c, Sources(c.order, direction), Targets(c.order, direction, deferred))
  }

  /** State after the greedy pass, before the rows are balanced. */
  function Moved(w: Load, p: Profile, movable: seq<int>, direction: Direction, amountLb: real,
                 minRetain: Load, softMax: Load, deferred: set<int>): Shift
  {
    var asked := Max(0.0, RoundLb(amountLb));
    if asked <= 0.0 || |movable| < 2 then Shift(w, asked, 0.0)
    else Run(Shift(w, asked, 0.0), ShiftCaps(p, softMax, movable), minRetain, MovesOf(p, movable, direction, deferred))
  }

  /** The layout `shiftCargoForCg` returns. */
  function Shifted(w: Load, p: Profile, movable: seq<int>, direction: Direction, amountLb: real,
                   minRetain: Load, softMax: Load, deferred: set<int>): Load
  {
    if Max(0.0, RoundLb(amountLb)) <= 0.0 || |movable| < 2 then w
    else Balanced(Moved(w, p, movable, direction, amountLb, minRetain, softMax, deferred).w, p, movable, softMax)
  }

  // ---- the greedy pass ----

  lemma {:induction false} RunAppend(s: Shift, cap: Load, minRetain: Load, a: seq<Move>, b: seq<Move>)
    ensures Run(s, cap, minRetain, a + b) == Run(Run(s, cap, minRetain, a), cap, minRetain, b)
    decreases a
  {
    if a == [] {
      assert a + b == b;
    } else {
      assert (a + b)[1..] == a[1..] + b;
      RunAppend(Step(s, cap, minRetain, a[0]), cap, minRetain, a[1..], b);
    }
  }

  /** Nothing moves once nothing is asked for. */
  lemma {:induction false} RunIdle(s: Shift, cap: Load, minRetain: Load, moves: seq<Move>)
    requires s.remaining <= 0.0
    ensures Run(s, cap, minRetain, moves) == s
    decreases moves
  {
    if moves != [] {
      RunIdle(s, cap, minRetain, moves[1..]);
    }
  }

  lemma {:induction false} RunSpent(s: Shift, cap: Load, minRetain: Load, c: Course, src: int, targets: seq<int>)
    requires Spare(s.w, minRetain, src) <= 0.0
    ensures Run(s, cap, minRetain, MovesFrom(c, src, targets)) == s
    decreases targets
  {
    if targets != [] {
      RunSpent(s, cap, minRetain, c, src, targets[1..]);
      if Allowed(c, src, targets[0]) {
        assert MovesFrom(c, src, targets)[1..] == MovesFrom(c, src, targets[1..]);
      } else {
        assert MovesFrom(c, src, targets) == MovesFrom(c, src, targets[1..]);
      }
    }
  }

  ghost predicate MovesWithin(moves: seq<Move>, ids: seq<int>) {
    forall m <- moves :: m.0 != m.1 && m.0 in ids && m.1 in ids
  }

  /** The pass only shifts mass between listed stations and accounts for every pound. */
  lemma {:induction false} RunConserves(s: Shift, cap: Load, minRetain: Load, moves: seq<Move>, ids: seq<int>)
    requires NoDup(ids) && MovesWithin(moves, ids)
    ensures var r := Run(s, cap, minRetain, moves);
            && Sum(r.w, ids) == Sum(s.w, ids)
            && r.moved + r.remaining == s.moved + s.remaining
            && r.moved >= s.moved
            && (s.remaining >= 0.0 ==> r.remaining >= 0.0)
    decreases moves
  {
    if moves != [] {
      var m := moves[0];
      assert m in moves;
      var d := MoveSize(s, cap, minRetain, m);
      if d > 0.0 {
        TransferSum(s.w, m.0, m.1, d, ids);
      }
      RunConserves(Step(s, cap, minRetain, m), cap, minRetain, moves[1..], ids);
    }
  }

  /** Each station stays between zero and its cap, and no source is pulled below its floor. */
  lemma {:induction false} RunBounds(s: Shift, cap: Load, minRetain: Load, moves: seq<Move>, i: int)
    requires forall m <- moves :: m.0 != m.1
    ensures var r := Run(s, cap, minRetain, moves);
            && At(r.w, i) <= Max(At(s.w, i), At(cap, i))
            && At(r.w, i) >= Min(At(s.w, i), Floor(minRetain, i))
    decreases moves
  {
    if moves != [] {
      assert moves[0] in moves;
      RunBounds(Step(s, cap, minRetain, moves[0]), cap, minRetain, moves[1..], i);
    }
  }

  lemma {:induction false} RunElsewhere(s: Shift, cap: Load, minRetain: Load, moves: seq<Move>, i: int)
    requires forall m <- moves :: m.0 != i && m.1 != i
    ensures At(Run(s, cap, minRetain, moves).w, i) == At(s.w, i)
    decreases moves
  {
    if moves != [] {
      assert moves[0] in moves;
      RunElsewhere(Step(s, cap, minRetain, moves[0]), cap, minRetain, moves[1..], i);
    }
  }

  /** Every move gains at least 0.05 ft of arm. */
  ghost predicate Gains(arm: Load, moves: seq<Move>) {
    forall m <- moves :: At(arm, m.1) - At(arm, m.0) >= 0.05
  }

  lemma StepGains(s: Shift, cap: Load, minRetain: Load, m: Move, arm: Load, ids: seq<int>)
    requires NoDup(ids) && m.0 != m.1 && m.0 in ids && m.1 in ids
    requires At(arm, m.1) - At(arm, m.0) >= 0.05
    ensures var t := Step(s, cap, minRetain, m);
            Moment(t.w, arm, ids) >= Moment(s.w, arm, ids) + 0.05 * (t.moved - s.moved)
  {
    var d := MoveSize(s, cap, minRetain, m);
    var t := Step(s, cap, minRetain, m);
    if d > 0.0 {
      TransferGains(s.w, arm, m.0, m.1, d, ids);
    }
  }

  /** The moment grows with every pound moved. */
  lemma {:induction false} RunGains(s: Shift, cap: Load, minRetain: Load, moves: seq<Move>, arm: Load, ids: seq<int>)
    requires NoDup(ids) && MovesWithin(moves, ids) && Gains(arm, moves)
    ensures var r := Run(s, cap, minRetain, moves);
            Moment(r.w, arm, ids) >= Moment(s.w, arm, ids) + 0.05 * (r.moved - s.moved)
    decreases moves
  {
    if moves != [] {
      assert moves[0] in moves;
      StepGains(s, cap, minRetain, moves[0], arm, ids);
      RunGains(Step(s, cap, minRetain, moves[0]), cap, minRetain, moves[1..], arm, ids);
    }
  }

  lemma {:induction false} RunWhole(s: Shift, cap: Load, minRetain: Load, moves: seq<Move>, ids: seq<int>)
    requires MovesWithin(moves, ids)
    requires WholeOn(s.w, ids) && WholeOn(cap, ids) && WholeOn(minRetain, ids) && Whole(s.remaining)
    ensures WholeOn(Run(s, cap, minRetain, moves).w, ids)
    decreases moves
  {
    if moves != [] {
      var m := moves[0];
      assert m in moves;
      var d := MoveSize(s, cap, minRetain, m);
      if d > 0.0 {
        WholeMove(s, cap, minRetain, m, ids);
      }
      RunWhole(Step(s, cap, minRetain, m), cap, minRetain, moves[1..], ids);
    }
  }

  lemma WholeMove(s: Shift, cap: Load, minRetain: Load, m: Move, ids: seq<int>)
    requires m.0 != m.1 && m.0 in ids && m.1 in ids
    requires WholeOn(s.w, ids) && WholeOn(cap, ids) && WholeOn(minRetain, ids) && Whole(s.remaining)
    requires MoveSize(s, cap, minRetain, m) > 0.0
    ensures WholeOn(Step(s, cap, minRetain, m).w, ids) && Whole(Step(s, cap, minRetain, m).remaining)
  {
    var d := MoveSize(s, cap, minRetain, m);
    assert Whole(0.0);
    assert Whole(At(s.w, m.0)) && Whole(At(s.w, m.1)) && Whole(At(cap, m.1)) && Whole(At(minRetain, m.0));
    WholeSum(0.0, Floor(minRetain, m.0));
    WholeSum(At(s.w, m.0), -Floor(minRetain, m.0));
    WholeSum(0.0, At(s.w, m.1));
    WholeSum(At(cap, m.1), -At(s.w, m.1));
    WholeSum(0.0, d);
    WholeSum(At(s.w, m.0), -d);
    WholeSum(At(s.w, m.1), d);
    WholeSum(s.remaining, -d);
    var v := Step(s, cap, minRetain, m).w;
    forall k <- ids ensures Whole(At(v, k)) {
      assert Whole(At(s.w, k));
    }
  }

  // ---- maximality ----

  /** No further pound can make this move: the source is at its floor or the target is full. */
  ghost predicate Stuck(w: Load, cap: Load, minRetain: Load, m: Move) {
    At(w, m.0) <= Floor(minRetain, m.0) || At(w, m.1) >= At(cap, m.1)
  }

  /** The moves come in an order in which nothing done later can reopen an earlier move: a
      drained source never receives again, and if a filled target is drained later, then only
      into targets its own sources had already tried. */
  ghost predicate Compatible(done: set<Move>, moves: seq<Move>)
    decreases moves
  {
    moves == [] || (HarmlessTo(done, moves[0]) && Compatible(done + {moves[0]}, moves[1..]))
  }

  ghost predicate HarmlessTo(done: set<Move>, m: Move) {
    && m.0 != m.1
    && forall e <- done :: e.0 != m.1 && (e.1 == m.0 ==> (e.0, m.1) in done)
  }

  lemma StepKeepsStuck(s: Shift, cap: Load, minRetain: Load, done: set<Move>, m: Move)
    requires HarmlessTo(done, m)
    requires forall e <- done :: Stuck(s.w, cap, minRetain, e)
    requires Step(s, cap, minRetain, m).remaining > 0.0
    ensures forall e <- done + {m} :: Stuck(Step(s, cap, minRetain, m).w, cap, minRetain, e)
  {
    var t := Step(s, cap, minRetain, m);
    forall e <- done + {m} ensures Stuck(t.w, cap, minRetain, e) {
      if e != m {
        assert Stuck(s.w, cap, minRetain, e);
        if e.1 == m.0 {
          assert Stuck(s.w, cap, minRetain, (e.0, m.1));
        }
      }
    }
  }

  /** If the pass ends with pounds still asked for, every move it tried is stuck at the end. */
  lemma {:induction false} RunSaturates(s: Shift, cap: Load, minRetain: Load, done: set<Move>, moves: seq<Move>)
    requires Compatible(done, moves)
    requires forall e <- done :: Stuck(s.w, cap, minRetain, e)
    requires Run(s, cap, minRetain, moves).remaining > 0.0
    ensures forall e <- done :: Stuck(Run(s, cap, minRetain, moves).w, cap, minRetain, e)
    ensures forall m <- moves :: Stuck(Run(s, cap, minRetain, moves).w, cap, minRetain, m)
    decreases moves
  {
    if moves != [] {
      var m := moves[0];
      var t := Step(s, cap, minRetain, m);
      if t.remaining <= 0.0 {
        RunIdle(t, cap, minRetain, moves[1..]);
      }
      StepKeepsStuck(s, cap, minRetain, done, m);
      RunSaturates(t, cap, minRetain, done + {m}, moves[1..]);
      assert m in done + {m};
      assert moves == [m] + moves[1..];
    }
  }

  /** Going on in the same direction: if i may feed j and j may feed k then i may feed k. */
  ghost predicate Chains(c: Course) {
    forall i, j, k | i in c.order && j in c.order && k in c.order ::
      Allowed(c, i, j) && Allowed(c, j, k) ==> Allowed(c, i, k)
  }

  lemma {:induction false} MovesFromHas(c: Course, src: int, targets: seq<int>, m: Move)
    ensures m in MovesFrom(c, src, targets) <==> m.0 == src && m.1 in targets && Allowed(c, src, m.1)
    decreases targets
  {
    if targets != [] {
      MovesFromHas(c, src, targets[1..], m);
      assert targets == [targets[0]] + targets[1..];
    }
  }

  lemma {:induction false} AllMovesHas(c: Course, sources: seq<int>, targets: seq<int>, m: Move)
    ensures m in AllMoves(c, sources, targets) <==> m.0 in sources && m.1 in targets && Allowed(c, m.0, m.1)
    decreases sources
  {
    if sources != [] {
      MovesFromHas(c, sources[0], targets, m);
      AllMovesHas(c, sources[1..], targets, m);
      assert sources == [sources[0]] + sources[1..];
    }
  }

  /** All allowed moves out of the sources handled so far. */
  ghost predicate Complete(c: Course, done: set<Move>, behind: seq<int>, targets: seq<int>) {
    forall m: Move :: m in done <==> m.0 in behind && m.1 in targets && Allowed(c, m.0, m.1)
  }

  lemma {:induction false} CompatibleAppend(done: set<Move>, a: seq<Move>, b: seq<Move>)
    requires Compatible(done, a) && Compatible(done + (set m | m in a), b)
    ensures Compatible(done, a + b)
    decreases a
  {
    if a == [] {
      assert a + b == b && done + (set m | m in a) == done;
    } else {
      assert (a + b)[1..] == a[1..] + b;
      assert a == [a[0]] + a[1..];
      assert done + {a[0]} + (set m | m in a[1..]) == done + (set m | m in a);
      CompatibleAppend(done + {a[0]}, a[1..], b);
    }
  }

  ghost predicate Follows(c: Course, behind: seq<int>, src: int) {
    src !in behind && forall i <- behind :: Ahead(c, i, src)
  }

  lemma {:induction false} RowCompatible(c: Course, done: set<Move>, behind: seq<int>, src: int,
                                         tried: set<Move>, rest: seq<int>, targets: seq<int>)
    requires Chains(c) && Complete(c, done, behind, targets) && Follows(c, behind, src)
    requires forall m <- tried :: m.0 == src && m.1 != src
    requires forall j <- rest :: j in targets
    requires src in c.order && Within(behind, c.order) && Within(targets, c.order)
    ensures Compatible(done + tried, MovesFrom(c, src, rest))
    decreases rest
  {
    if rest != [] {
      var dst := rest[0];
      assert dst in rest;
      if Allowed(c, src, dst) {
        var m := (src, dst);
        forall e <- done + tried ensures e.0 != dst && (e.1 == src ==> (e.0, dst) in done + tried) {
          if e in done {
            assert Ahead(c, e.0, src) && Ahead(c, src, dst);
            if e.1 == src {
              assert Allowed(c, e.0, dst);
              assert (e.0, dst) in done;
            }
          } else {
            assert e in tried;
          }
        }
        RowCompatible(c, done, behind, src, tried + {m}, rest[1..], targets);
        assert done + tried + {m} == done + (tried + {m});
        assert MovesFrom(c, src, rest)[1..] == MovesFrom(c, src, rest[1..]);
      } else {
        RowCompatible(c, done, behind, src, tried, rest[1..], targets);
        assert MovesFrom(c, src, rest) == MovesFrom(c, src, rest[1..]);
      }
    }
  }

  /** Sources listed so that each one is ahead of all the ones before it. */
  ghost predicate Successive(c: Course, sources: seq<int>) {
    && NoDup(sources)
    && forall j, k :: 0 <= j < k < |sources| ==> Ahead(c, sources[j], sources[k])
  }

  lemma {:induction false} SweepCompatible(c: Course, done: set<Move>, behind: seq<int>, rest: seq<int>, targets: seq<int>)
    requires Chains(c) && Complete(c, done, behind, targets) && Successive(c, behind + rest)
    requires Within(behind, c.order) && Within(rest, c.order) && Within(targets, c.order)
    ensures Compatible(done, AllMoves(c, rest, targets))
    decreases rest
  {
    if rest != [] {
      var src := rest[0];
      var all := behind + rest;
      assert all[|behind|] == src;
      assert Follows(c, behind, src) by {
        forall i <- behind ensures i != src && Ahead(c, i, src) {
          var k :| 0 <= k < |behind| && behind[k] == i;
          assert all[k] == i;
        }
      }
      RowCompatible(c, done, behind, src, {}, targets, targets);
      var row := MovesFrom(c, src, targets);
      var next := done + (set m | m in row);
      assert done + {} == done;
      forall m: Move ensures m in next <==> m.0 in behind + [src] && m.1 in targets && Allowed(c, m.0, m.1) {
        MovesFromHas(c, src, targets, m);
      }
      assert behind + [src] + rest[1..] == all;
      SweepCompatible(c, next, behind + [src], rest[1..], targets);
      CompatibleAppend(done, row, AllMoves(c, rest[1..], targets));
    }
  }

  // ---- the longitudinal order ----

  lemma {:induction false} IndexOfAt(s: seq<int>, k: nat)
    requires NoDup(s) && k < |s|
    ensures IndexOf(s, s[k]) == k
  {
    if k > 0 {
      IndexOfAt(s[1..], k - 1);
    }
  }

  lemma OrderMembers(p: Profile, ids: seq<int>, i: int)
    requires i in ForwardFirst(p, ids)
    ensures i in ids
  {
    var ss := Resolve(p, ids);
    if |ss| > 0 && AllHaveArms(ss) {
      var xs := SortBy(ss, ArmDescending);
      var k :| 0 <= k < |xs| && xs[k].index == i;
      var s := xs[k];
      SortHas(ss, ArmDescending, s);
      ResolveMember(p, ids, s);
    } else {
      SortHas(ids, Ascending, i);
    }
  }

  lemma {:induction false} InsertDistinct(x: Station, s: seq<Station>)
    requires DistinctIndex(s) && forall y <- s :: y.index != x.index
    ensures DistinctIndex(Insert(x, s, ArmDescending))
  {
    if s != [] && !ArmDescending(x, s[0]) {
      InsertDistinct(x, s[1..]);
      var r := Insert(x, s[1..], ArmDescending);
      assert s[0] in s;
      forall k | 0 <= k < |r| ensures r[k].index != s[0].index {
        InsertHas(x, s[1..], ArmDescending, r[k]);
      }
    }
  }

  lemma {:induction false} SortDistinct(s: seq<Station>)
    requires DistinctIndex(s)
    ensures DistinctIndex(SortBy(s, ArmDescending))
  {
    if s != [] {
      SortDistinct(s[1..]);
      var r := SortBy(s[1..], ArmDescending);
      forall y <- r ensures y.index != s[0].index {
        SortHas(s[1..], ArmDescending, y);
      }
      InsertDistinct(s[0], r);
    }
  }

  lemma OrderNoDup(p: Profile, ids: seq<int>)
    requires NoDup(ids)
    ensures NoDup(ForwardFirst(p, ids))
  {
    ResolveDistinct(p, ids);
    SortDistinct(Resolve(p, ids));
    SortNoDup(ids, Ascending);
  }

  /** Arms fall, or stay level, along the order; or no station has one. */
  ghost predicate Graded(p: Profile, order: seq<int>) {
    || (forall j, k :: 0 <= j <= k < |order| ==>
          ArmOf(p, order[j]).Some? && ArmOf(p, order[k]).Some? &&
          ArmOf(p, order[j]).value >= ArmOf(p, order[k]).value)
    || (forall j :: 0 <= j < |order| ==> ArmOf(p, order[j]).None?)
  }

  ghost predicate ArmsKnown(p: Profile, ids: seq<int>) {
    forall i <- ids :: Known(p, i) && ArmOf(p, i).Some?
  }

  /** Sorting leaves out stations without arms here, so the comparison is a total order. */
  lemma {:induction false} InsertGraded(x: Station, s: seq<Station>)
    requires x.arm.Some? && AllHaveArms(s) && Ordered(s, ArmDescending)
    ensures AllHaveArms(Insert(x, s, ArmDescending)) && Ordered(Insert(x, s, ArmDescending), ArmDescending)
  {
    if s != [] && !ArmDescending(x, s[0]) {
      InsertGraded(x, s[1..]);
      var r := Insert(x, s[1..], ArmDescending);
      forall k | 0 <= k < |r| ensures ArmDescending(s[0], r[k]) {
        InsertHas(x, s[1..], ArmDescending, r[k]);
      }
    }
  }

  lemma {:induction false} SortGraded(s: seq<Station>)
    requires AllHaveArms(s)
    ensures AllHaveArms(SortBy(s, ArmDescending)) && Ordered(SortBy(s, ArmDescending), ArmDescending)
  {
    if s != [] {
      SortGraded(s[1..]);
      InsertGraded(s[0], SortBy(s[1..], ArmDescending));
    }
  }

  lemma OrderGraded(p: Profile, ids: seq<int>)
    requires (forall s <- Resolve(p, ids) :: s.arm.Some?) || (forall s <- Resolve(p, ids) :: s.arm.None?)
    ensures Graded(p, ForwardFirst(p, ids))
  {
    var ss := Resolve(p, ids);
    var order := ForwardFirst(p, ids);
    if |ss| > 0 && AllHaveArms(ss) {
      var xs := SortBy(ss, ArmDescending);
      SortGraded(ss);
      forall k | 0 <= k < |order| ensures ArmOf(p, order[k]) == xs[k].arm {
        SortHas(ss, ArmDescending, xs[k]);
        ResolveMember(p, ids, xs[k]);
      }
    } else {
      forall k | 0 <= k < |order| ensures ArmOf(p, order[k]).None? {
        SortHas(ids, Ascending, order[k]);
        if Known(p, order[k]) {
          LookupHit(p, order[k]);
          ResolveMember(p, ids, Lookup(p, order[k]).value);
          assert Lookup(p, order[k]).value in ss;
        }
      }
    }
  }

  // ---- the method ----

  function Tried(s: Shift, cap: Load, minRetain: Load, c: Course, src: int, dst: int): Shift {
    if Allowed(c, src, dst) then Step(s, cap, minRetain, (src, dst)) else s
  }

  lemma DrainTurn(s: Shift, cap: Load, minRetain: Load, c: Course, src: int, targets: seq<int>, k: nat)
    requires k < |targets|
    ensures Run(s, cap, minRetain, MovesFrom(c, src, targets[k..]))
         == Run(Tried(s, cap, minRetain, c, src, targets[k]), cap, minRetain, MovesFrom(c, src, targets[k + 1..]))
  {
    assert targets[k..][1..] == targets[k + 1..];
    var rest := MovesFrom(c, src, targets[k + 1..]);
    if Allowed(c, src, targets[k]) {
      assert ([(src, targets[k])] + rest)[1..] == rest;
    } else {
      assert [] + rest == rest;
    }
  }

  /** The inner loop: one source against the targets in turn. */
  method DrainSource(start: Shift, cap: Load, minRetain: Load, c: Course, src: int, targets: seq<int>)
    returns (s: Shift)
    ensures s == Run(start, cap, minRetain, MovesFrom(c, src, targets))
  {
    s := start;
    var floor := Max(0.0, At(minRetain, src));
    var available := Max(0.0, At(s.w, src) - floor);
    if available <= 0.0 {
      RunSpent(s, cap, minRetain, c, src, targets);
      return;
    }
    ghost var goal := Run(start, cap, minRetain, MovesFrom(c, src, targets));
    assert targets[0..] == targets;
    for k := 0 to |targets|
      invariant available == Spare(s.w, minRetain, src)
      invariant Run(s, cap, minRetain, MovesFrom(c, src, targets[k..])) == goal
    {
      if s.remaining <= 0.0 {
        RunIdle(s, cap, minRetain, MovesFrom(c, src, targets[k..]));
        return;
      }
      if available <= 0.0 {
        RunSpent(s, cap, minRetain, c, src, targets[k..]);
        return;
      }
      DrainTurn(s, cap, minRetain, c, src, targets, k);
      s, available := TryTarget(s, cap, minRetain, c, src, targets[k], available);
    }
    assert targets[|targets|..] == [];
  }

  /** The body of the inner loop. */
  method TryTarget(s: Shift, cap: Load, minRetain: Load, c: Course, src: int, dst: int, available: real)
    returns (t: Shift, left: real)
    requires available == Spare(s.w, minRetain, src)
    ensures t == Tried(s, cap, minRetain, c, src, dst)
    ensures left == Spare(t.w, minRetain, src)
  {
    t, left := s, available;
    if !Allowed(c, src, dst) {
      return;
    }
    var room := Max(0.0, At(cap, dst) - At(s.w, dst));
    var move := Min(s.remaining, Min(available, room));
    if move <= 0.0 {
      return;
    }
    t := Shift(Transfer(s.w, src, dst, move), s.remaining - move, s.moved + move);
    left := available - move;
  }

  /** Move payload toward the nose or the tail among the movable stations. */
  method ShiftCargoForCg(stations: Load, p: Profile, movable: seq<int>, direction: Direction, amountLb: real,
                         minRetain: Load, softMax: Load, deferTargets: set<int>)
    returns (next: Load, movedLb: real)
    ensures next == Shifted(stations, p, movable, direction, amountLb, minRetain, softMax, deferTargets)
    ensures movedLb == Moved(stations, p, movable, direction, amountLb, minRetain, softMax, deferTargets).moved
  {
    var asked := Max(0.0, RoundLb(amountLb));
    if asked <= 0.0 || |movable| < 2 {
      return stations, 0.0;
    }
    var rows := FindLateralStationGroups(p, movable);
    var c := Course(p, ForwardFirst(p, movable), rows, direction);
    var caps := ShiftCaps(p, softMax, movable);
    var sources := Sources(c.order, direction);
    var targets := Targets(c.order, direction, deferTargets);
    var s := Shift(stations, asked, 0.0);
    ghost var goal := Run(s, caps, minRetain, MovesOf(p, movable, direction, deferTargets));
    assert sources[0..] == sources;
    for k := 0 to |sources|
      invariant Run(s, caps, minRetain, AllMoves(c, sources[k..], targets)) == goal
    {
      if s.remaining <= 0.0 {
        RunIdle(s, caps, minRetain, AllMoves(c, sources[k..], targets));
        break;
      }
      assert sources[k..][1..] == sources[k + 1..];
      RunAppend(s, caps, minRetain, MovesFrom(c, sources[k], targets), AllMoves(c, sources[k + 1..], targets));
      s := DrainSource(s, caps, minRetain, c, sources[k], targets);
    }
    assert sources[|sources|..] == [];
    assert s == goal;
    next := EqualizeLateralStationPairs(s.w, p, movable, softMax);
    movedLb := s.moved;
  }
}

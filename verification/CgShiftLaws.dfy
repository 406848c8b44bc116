/** What a CG shift promises: mass, caps and moment on the one side, and on the other that it
    stops short only when nothing more can be moved. */
module {:induction false} CgShiftLaws {
  import opened Options
  import opened Weights
  import opened Stations
  import opened Sorting
  import opened WaterFill
  import opened LateralRows
  import opened RowBalance
  import opened CgShift

  lemma {:induction false} WithoutHas(s: seq<int>, deferred: set<int>, i: int)
    ensures i in Without(s, deferred) <==> i in s && i !in deferred
    ensures i in Only(s, deferred) <==> i in s && i in deferred
  {
    if s != [] {
      WithoutHas(s[1..], deferred, i);
      assert s == [s[0]] + s[1..];
    }
  }

  lemma ReversedHas(s: seq<int>, i: int)
    ensures i in Reversed(s) <==> i in s
  {
    if i in s {
      var k :| 0 <= k < |s| && s[k] == i;
      assert Reversed(s)[|s| - 1 - k] == i;
    }
    if i in Reversed(s) {
      var k :| 0 <= k < |s| && Reversed(s)[k] == i;
      assert s[|s| - 1 - k] == i;
    }
  }

  /** Deferring targets changes the order in which they are tried, never which ones are tried. */
  lemma TargetsHas(order: seq<int>, direction: Direction, deferred: set<int>, i: int)
    ensures i in Targets(order, direction, deferred) <==> i in order
    ensures i in Sources(order, direction) <==> i in order
  {
    WithoutHas(order, deferred, i);
    ReversedHas(order, i);
  }

  lemma MovesOfHas(p: Profile, movable: seq<int>, direction: Direction, deferred: set<int>, m: Move)
    ensures m in MovesOf(p, movable, direction, deferred) <==>
            var c := CourseOf(p, movable, direction);
            m.0 in c.order && m.1 in c.order && Allowed(c, m.0, m.1)
  {
    var c := CourseOf(p, movable, direction);
    AllMovesHas(c, Sources(c.order, direction), Targets(c.order, direction, deferred), m);
    TargetsHas(c.order, direction, deferred, m.0);
    TargetsHas(c.order, direction, deferred, m.1);
  }

  lemma SourcesSuccessive(c: Course)
    requires NoDup(c.order)
    ensures Successive(c, Sources(c.order, c.direction))
  {
    var s := Sources(c.order, c.direction);
    var n := |c.order|;
    forall j, k | 0 <= j < k < |s| ensures s[j] != s[k] && Ahead(c, s[j], s[k]) {
      if c.direction == Forward {
        IndexOfAt(c.order, n - 1 - j);
        IndexOfAt(c.order, n - 1 - k);
      } else {
        IndexOfAt(c.order, j);
        IndexOfAt(c.order, k);
      }
    }
  }

  lemma AheadAt(c: Course, x: nat, y: nat)
    requires NoDup(c.order) && x < |c.order| && y < |c.order|
    ensures Ahead(c, c.order[x], c.order[y]) <==> if c.direction == Forward then y < x else x < y
  {
    IndexOfAt(c.order, x);
    IndexOfAt(c.order, y);
  }

  lemma AllowedCompose(c: Course, x: nat, y: nat, z: nat)
    requires NoDup(c.order) && c.rows == [] && Graded(c.p, c.order)
    requires x < |c.order| && y < |c.order| && z < |c.order|
    requires Allowed(c, c.order[x], c.order[y]) && Allowed(c, c.order[y], c.order[z])
    ensures Allowed(c, c.order[x], c.order[z])
  {
    AheadAt(c, x, y);
    AheadAt(c, y, z);
    AheadAt(c, x, z);
  }

  /** Without rows, and with arms on every station or on none, allowed moves compose. */
  lemma GradedChains(c: Course)
    requires NoDup(c.order) && c.rows == [] && Graded(c.p, c.order)
    ensures Chains(c)
  {
    forall i, j, k | i in c.order && j in c.order && k in c.order && Allowed(c, i, j) && Allowed(c, j, k)
      ensures Allowed(c, i, k)
    {
      var x :| 0 <= x < |c.order| && c.order[x] == i;
      var y :| 0 <= y < |c.order| && c.order[y] == j;
      var z :| 0 <= z < |c.order| && c.order[z] == k;
      AllowedCompose(c, x, y, z);
    }
  }

  /** Either all the listed known stations have arms or none has. */
  ghost predicate UniformArms(p: Profile, ids: seq<int>) {
    || (forall s <- Resolve(p, ids) :: s.arm.Some?)
    || (forall s <- Resolve(p, ids) :: s.arm.None?)
  }

  /** The greedy pass leaves every allowed move stuck, or has moved all that was asked for. */
  lemma PassIsMaximal(w: Load, p: Profile, movable: seq<int>, direction: Direction, amountLb: real,
                      minRetain: Load, softMax: Load, deferred: set<int>, m: Move)
    requires NoDup(movable) && |movable| >= 2 && Rows(p, movable) == [] && Chains(CourseOf(p, movable, direction))
    requires RoundLb(amountLb) > 0.0 && m in MovesOf(p, movable, direction, deferred)
    requires var s := Moved(w, p, movable, direction, amountLb, minRetain, softMax, deferred);
             s.moved < RoundLb(amountLb)
    ensures Stuck(Moved(w, p, movable, direction, amountLb, minRetain, softMax, deferred).w,
                  ShiftCaps(p, softMax, movable), minRetain, m)
  {
    var caps := ShiftCaps(p, softMax, movable);
    var moves := MovesOf(p, movable, direction, deferred);
    var start := Shift(w, RoundLb(amountLb), 0.0);
    MovesCompatible(p, movable, direction, deferred);
    RunAccounts(start, caps, minRetain, moves);
    RunSaturates(start, caps, minRetain, {}, moves);
  }

  lemma MovesCompatible(p: Profile, movable: seq<int>, direction: Direction, deferred: set<int>)
    requires NoDup(movable) && Rows(p, movable) == [] && Chains(CourseOf(p, movable, direction))
    ensures Compatible({}, MovesOf(p, movable, direction, deferred))
  {
    var c := CourseOf(p, movable, direction);
    OrderNoDup(p, movable);
    SourcesSuccessive(c);
    var sources, targets := Sources(c.order, direction), Targets(c.order, direction, deferred);
    forall i <- sources ensures i in c.order { TargetsHas(c.order, direction, deferred, i); }
    forall i <- targets ensures i in c.order { TargetsHas(c.order, direction, deferred, i); }
    assert [] + sources == sources;
    SweepCompatible(c, {}, [], sources, targets);
  }

  /** Moves chain when all movable stations have arms or none has ... */
  lemma UniformArmsChain(p: Profile, movable: seq<int>, direction: Direction)
    requires NoDup(movable) && Rows(p, movable) == [] && UniformArms(p, movable)
    ensures Chains(CourseOf(p, movable, direction))
  {
    OrderNoDup(p, movable);
    OrderGraded(p, movable);
    GradedChains(CourseOf(p, movable, direction));
  }

  /** No two known arms are closer than 0.05 ft. */
  ghost predicate ArmsApart(p: Profile, ids: seq<int>) {
    forall i <- ids, j <- ids :: i != j ==> !SameArm(p, i, j)
  }

  /** ... and in any profile, mixed ones included, whose known arms are apart. */
  lemma ApartArmsChain(p: Profile, movable: seq<int>, direction: Direction)
    requires NoDup(movable) && Rows(p, movable) == [] && ArmsApart(p, movable)
    ensures Chains(CourseOf(p, movable, direction))
  {
    var c := CourseOf(p, movable, direction);
    OrderNoDup(p, movable);
    forall i, j, k | i in c.order && j in c.order && k in c.order && Allowed(c, i, j) && Allowed(c, j, k)
      ensures Allowed(c, i, k)
    {
      OrderMembers(p, movable, i);
      OrderMembers(p, movable, k);
    }
  }

  /** Maximality: with no rows to protect, if less was moved than asked for, then for every
      pair of stations at least 0.05 ft apart in the requested direction the source is at (or
      below) its retained floor or the target is full, whichever targets were deferred. */
  lemma ShiftIsMaximal(w: Load, p: Profile, movable: seq<int>, direction: Direction, amountLb: real,
                       minRetain: Load, softMax: Load, deferred: set<int>, src: int, dst: int)
    requires NoDup(movable) && |movable| >= 2 && Rows(p, movable) == [] && Chains(CourseOf(p, movable, direction))
    requires var s := Moved(w, p, movable, direction, amountLb, minRetain, softMax, deferred);
             s.moved < RoundLb(amountLb)
    requires var c := CourseOf(p, movable, direction);
             src in c.order && dst in c.order && Allowed(c, src, dst)
    ensures Stuck(Shifted(w, p, movable, direction, amountLb, minRetain, softMax, deferred),
                  ShiftCaps(p, softMax, movable), minRetain, (src, dst))
  {
    MovesOfHas(p, movable, direction, deferred, (src, dst));
    var s := Moved(w, p, movable, direction, amountLb, minRetain, softMax, deferred);
    if RoundLb(amountLb) > 0.0 {
      PassIsMaximal(w, p, movable, direction, amountLb, minRetain, softMax, deferred, (src, dst));
    }
  }

  lemma {:induction false} RunAccounts(s: Shift, cap: Load, minRetain: Load, moves: seq<Move>)
    ensures var r := Run(s, cap, minRetain, moves);
            && r.moved + r.remaining == s.moved + s.remaining
            && r.moved >= s.moved
            && (s.remaining >= 0.0 ==> r.remaining >= 0.0)
    decreases moves
  {
    if moves != [] {
      RunAccounts(Step(s, cap, minRetain, moves[0]), cap, minRetain, moves[1..]);
    }
  }

  function Arms(p: Profile, ids: seq<int>): Load {
    map i | i in ids :: match ArmOf(p, i) case None => 0.0 case Some(a) => a
  }

  function Negated(arm: Load): Load {
    map i | i in arm :: -arm[i]
  }

  lemma {:induction false} NegatedMoment(w: Load, arm: Load, ids: seq<int>)
    ensures Moment(w, Negated(arm), ids) == -Moment(w, arm, ids)
  {
    if ids != [] {
      NegatedMoment(w, arm, ids[1..]);
    }
  }

  /** Whole pounds on known stations within their caps, whole caps and whole retained floors. */
  ghost predicate ShiftReady(w: Load, p: Profile, movable: seq<int>, minRetain: Load, softMax: Load) {
    && NoDup(movable)
    && (forall i <- movable :: Known(p, i))
    && (forall i <- movable :: 0.0 <= At(w, i) <= EffectiveCap(p, softMax, i))
    && WholeOn(w, movable) && WholeOn(Caps(p, softMax, movable), movable) && WholeOn(minRetain, movable)
  }

  lemma MovesOfWithin(p: Profile, movable: seq<int>, direction: Direction, deferred: set<int>)
    ensures MovesWithin(MovesOf(p, movable, direction, deferred), movable)
  {
    forall m <- MovesOf(p, movable, direction, deferred)
      ensures m.0 != m.1 && m.0 in movable && m.1 in movable
    {
      MovesOfHas(p, movable, direction, deferred, m);
      OrderMembers(p, movable, m.0);
      OrderMembers(p, movable, m.1);
    }
  }

  /** Rows of whole, in-cap weights lose nothing when balanced. */
  lemma WholeRowsFit(v: Load, cap: Load, rows: seq<Row>, movable: seq<int>)
    requires WholeOn(v, movable) && RowsIn(rows, movable)
    requires forall i <- movable :: 0.0 <= At(v, i) <= At(cap, i)
    ensures RowsFit(v, cap, rows) && CapsNonNegative(cap, rows)
  {
    forall r <- rows ensures RowFits(v, cap, r) && At(cap, r.0) >= 0.0 && At(cap, r.1) >= 0.0 {
      assert r.0 in movable && r.1 in movable;
      WholeSum(At(v, r.0), At(v, r.1));
    }
  }

  /** After the greedy pass every row still fits, so balancing the rows loses nothing. */
  lemma MovedFits(w: Load, p: Profile, movable: seq<int>, direction: Direction, amountLb: real,
                  minRetain: Load, softMax: Load, deferred: set<int>)
    requires ShiftReady(w, p, movable, minRetain, softMax)
    ensures var v := Moved(w, p, movable, direction, amountLb, minRetain, softMax, deferred).w;
            && RowsFit(v, Caps(p, softMax, movable), Rows(p, movable))
            && CapsNonNegative(Caps(p, softMax, movable), Rows(p, movable))
            && forall i <- movable :: 0.0 <= At(v, i) <= EffectiveCap(p, softMax, i)
  {
    var s := Shift(w, Max(0.0, RoundLb(amountLb)), 0.0);
    var caps := Caps(p, softMax, movable);
    var moves := if s.remaining <= 0.0 || |movable| < 2 then [] else MovesOf(p, movable, direction, deferred);
    var v := Run(s, caps, minRetain, moves).w;
    assert ShiftCaps(p, softMax, movable) == caps;
    MovesOfWithin(p, movable, direction, deferred);
    RoundWhole(amountLb);
    assert Whole(0.0);
    RunWhole(s, caps, minRetain, moves, movable);
    forall i <- movable ensures 0.0 <= At(v, i) <= EffectiveCap(p, softMax, i) {
      RunBounds(s, caps, minRetain, moves, i);
    }
    RowsPartition(p, movable);
    WholeRowsFit(v, caps, Rows(p, movable), movable);
  }

  /** A shift keeps the movable mass, moves no more than asked, touches no other station and
      leaves every movable station between zero and its cap. */
  lemma ShiftConserves(w: Load, p: Profile, movable: seq<int>, direction: Direction, amountLb: real,
                       minRetain: Load, softMax: Load, deferred: set<int>)
    requires ShiftReady(w, p, movable, minRetain, softMax)
    ensures var s := Moved(w, p, movable, direction, amountLb, minRetain, softMax, deferred);
            var v := Shifted(w, p, movable, direction, amountLb, minRetain, softMax, deferred);
            && Sum(v, movable) == Sum(w, movable)
            && 0.0 <= s.moved <= Max(0.0, RoundLb(amountLb))
            && (forall i :: i !in movable ==> At(v, i) == At(w, i))
            && (forall i <- movable :: 0.0 <= At(v, i) <= EffectiveCap(p, softMax, i))
  {
    var s := Moved(w, p, movable, direction, amountLb, minRetain, softMax, deferred);
    var v := Shifted(w, p, movable, direction, amountLb, minRetain, softMax, deferred);
    var asked := Max(0.0, RoundLb(amountLb));
    var caps, rows := Caps(p, softMax, movable), Rows(p, movable);
    if asked > 0.0 && |movable| >= 2 {
      var moves := MovesOf(p, movable, direction, deferred);
      MovesOfWithin(p, movable, direction, deferred);
      RunConserves(Shift(w, asked, 0.0), ShiftCaps(p, softMax, movable), minRetain, moves, movable);
      MovedFits(w, p, movable, direction, amountLb, minRetain, softMax, deferred);
      RowsPartition(p, movable);
      EvenRowsKeep(s.w, caps, map[], rows, movable);
      forall i | i !in movable ensures At(v, i) == At(w, i) {
        RunElsewhere(Shift(w, asked, 0.0), ShiftCaps(p, softMax, movable), minRetain, moves, i);
        EvenRowsElsewhere(s.w, caps, rows, i);
      }
      forall i <- movable ensures 0.0 <= At(v, i) <= EffectiveCap(p, softMax, i) {
        EvenRowsBounds(s.w, caps, rows, i);
      }
    }
  }

  /** Every row sits on one arm. */
  ghost predicate LevelRows(p: Profile, movable: seq<int>) {
    RowsLevel(Arms(p, movable), Rows(p, movable))
  }

  lemma ArmsGraded(p: Profile, movable: seq<int>)
    requires NoDup(movable) && ArmsKnown(p, movable)
    ensures NoDup(ForwardFirst(p, movable)) && Graded(p, ForwardFirst(p, movable))
  {
    forall s <- Resolve(p, movable) ensures s.arm.Some? {
      ResolveMember(p, movable, s);
    }
    OrderNoDup(p, movable);
    OrderGraded(p, movable);
  }

  /** An allowed move gains at least 0.05 ft in its direction. */
  lemma MoveGains(c: Course, m: Move)
    requires NoDup(c.order) && Graded(c.p, c.order) && m.0 in c.order && m.1 in c.order && Allowed(c, m.0, m.1)
    requires ArmOf(c.p, m.0).Some? && ArmOf(c.p, m.1).Some?
    ensures if c.direction == Forward then ArmOf(c.p, m.1).value - ArmOf(c.p, m.0).value >= 0.05
            else ArmOf(c.p, m.0).value - ArmOf(c.p, m.1).value >= 0.05
  {
    var x :| 0 <= x < |c.order| && c.order[x] == m.0;
    var y :| 0 <= y < |c.order| && c.order[y] == m.1;
    IndexOfAt(c.order, x);
    IndexOfAt(c.order, y);
  }

  /** The arms as the direction counts them: forward gains are positive, and so are aft ones. */
  function Signed(arm: Load, direction: Direction): Load {
    if direction == Forward then arm else Negated(arm)
  }

  lemma SignedGain(p: Profile, movable: seq<int>, direction: Direction, m: Move)
    requires NoDup(movable) && ArmsKnown(p, movable) && m.0 in ForwardFirst(p, movable) && m.1 in ForwardFirst(p, movable)
    requires Allowed(CourseOf(p, movable, direction), m.0, m.1)
    ensures At(Signed(Arms(p, movable), direction), m.1) - At(Signed(Arms(p, movable), direction), m.0) >= 0.05
  {
    ArmsGraded(p, movable);
    OrderMembers(p, movable, m.0);
    OrderMembers(p, movable, m.1);
    MoveGains(CourseOf(p, movable, direction), m);
  }

  lemma MovesInOrder(p: Profile, movable: seq<int>, direction: Direction, deferred: set<int>, m: Move)
    requires m in MovesOf(p, movable, direction, deferred)
    ensures m.0 in ForwardFirst(p, movable) && m.1 in ForwardFirst(p, movable) && Allowed(CourseOf(p, movable, direction), m.0, m.1)
  {
    MovesOfHas(p, movable, direction, deferred, m);
  }

  lemma MovesGain(p: Profile, movable: seq<int>, direction: Direction, deferred: set<int>)
    requires NoDup(movable) && ArmsKnown(p, movable)
    ensures Gains(Signed(Arms(p, movable), direction), MovesOf(p, movable, direction, deferred))
  {
    var sign := Signed(Arms(p, movable), direction);
    forall m <- MovesOf(p, movable, direction, deferred) ensures At(sign, m.1) - At(sign, m.0) >= 0.05 {
      MovesInOrder(p, movable, direction, deferred, m);
      SignedGain(p, movable, direction, m);
    }
  }

  /** Counted in its direction, every pound of the pass gains at least 0.05 lb-ft, whatever the rows. */
  lemma PassGains(w: Load, p: Profile, movable: seq<int>, direction: Direction, amountLb: real,
                  minRetain: Load, softMax: Load, deferred: set<int>)
    requires ShiftReady(w, p, movable, minRetain, softMax) && ArmsKnown(p, movable)
    ensures var s := Moved(w, p, movable, direction, amountLb, minRetain, softMax, deferred);
            var sign := Signed(Arms(p, movable), direction);
            Moment(s.w, sign, movable) >= Moment(w, sign, movable) + 0.05 * s.moved
  {
    var asked := Max(0.0, RoundLb(amountLb));
    if asked > 0.0 && |movable| >= 2 {
      var moves := MovesOf(p, movable, direction, deferred);
      MovesOfWithin(p, movable, direction, deferred);
      MovesGain(p, movable, direction, deferred);
      RunGains(Shift(w, asked, 0.0), ShiftCaps(p, softMax, movable), minRetain, moves, Signed(Arms(p, movable), direction), movable);
    }
  }

  /** The pass itself goes the right way, whatever the rows. */
  lemma PassMovesMoment(w: Load, p: Profile, movable: seq<int>, direction: Direction, amountLb: real,
                        minRetain: Load, softMax: Load, deferred: set<int>)
    requires ShiftReady(w, p, movable, minRetain, softMax) && ArmsKnown(p, movable)
    ensures var s := Moved(w, p, movable, direction, amountLb, minRetain, softMax, deferred);
            var arm := Arms(p, movable);
            match direction
            case Forward => Moment(s.w, arm, movable) >= Moment(w, arm, movable) + 0.05 * s.moved
            case Aft => Moment(s.w, arm, movable) <= Moment(w, arm, movable) - 0.05 * s.moved
  {
    PassGains(w, p, movable, direction, amountLb, minRetain, softMax, deferred);
    NegatedMoment(w, Arms(p, movable), movable);
    NegatedMoment(Moved(w, p, movable, direction, amountLb, minRetain, softMax, deferred).w, Arms(p, movable), movable);
  }

  /** Where a shift that does something ends, for rows on any arms and whatever arms it is measured by:
      where the pass left it, plus the drift of its rows. */
  lemma ShiftMomentIs(w: Load, p: Profile, movable: seq<int>, direction: Direction, amountLb: real,
                      minRetain: Load, softMax: Load, deferred: set<int>, arm: Load)
    requires ShiftReady(w, p, movable, minRetain, softMax) && RoundLb(amountLb) > 0.0 && |movable| >= 2
    ensures var s := Moved(w, p, movable, direction, amountLb, minRetain, softMax, deferred);
            Moment(Shifted(w, p, movable, direction, amountLb, minRetain, softMax, deferred), arm, movable)
            == Moment(s.w, arm, movable) + RowsDrift(s.w, Caps(p, softMax, movable), arm, Rows(p, movable))
  {
    var s := Moved(w, p, movable, direction, amountLb, minRetain, softMax, deferred);
    MovedFits(w, p, movable, direction, amountLb, minRetain, softMax, deferred);
    RowsPartition(p, movable);
    EvenRowsMoment(s.w, Caps(p, softMax, movable), arm, Rows(p, movable), movable);
  }

  /** The shift goes the right way: forward raises the moment by at least 0.05 ft for every
      pound reported as moved, aft lowers it by as much. */
  lemma ShiftMovesMoment(w: Load, p: Profile, movable: seq<int>, direction: Direction, amountLb: real,
                         minRetain: Load, softMax: Load, deferred: set<int>)
    requires ShiftReady(w, p, movable, minRetain, softMax)
    requires ArmsKnown(p, movable) && LevelRows(p, movable)
    ensures var s := Moved(w, p, movable, direction, amountLb, minRetain, softMax, deferred);
            var v := Shifted(w, p, movable, direction, amountLb, minRetain, softMax, deferred);
            var arm := Arms(p, movable);
            match direction
            case Forward => Moment(v, arm, movable) >= Moment(w, arm, movable) + 0.05 * s.moved
            case Aft => Moment(v, arm, movable) <= Moment(w, arm, movable) - 0.05 * s.moved
  {
    var s := Moved(w, p, movable, direction, amountLb, minRetain, softMax, deferred);
    var arm := Arms(p, movable);
    PassMovesMoment(w, p, movable, direction, amountLb, minRetain, softMax, deferred);
    if Max(0.0, RoundLb(amountLb)) > 0.0 && |movable| >= 2 {
      MovedFits(w, p, movable, direction, amountLb, minRetain, softMax, deferred);
      RowsPartition(p, movable);
      EvenRowsKeep(s.w, Caps(p, softMax, movable), arm, Rows(p, movable), movable);
    }
  }
}

/** Why a deferred seat can gain before the others are full: a shift that asks for more than its only
    source can spare takes the rest from a station that has just been fed. */
module {:induction false} ShiftDeferral {
  import opened Options
  import opened Weights
  import opened Stations
  import opened Sorting
  import opened WaterFill
  import opened LateralRows
  import opened CgShift
  import opened ShiftOrder

  /** Three stations in single file: no names, no neighbouring indexes, arms far apart. */
  ghost predicate SingleFile(s: Station, t: Station, v: Station) {
    && s.index == 1 && t.index == 3 && v.index == 5
    && s.side.None? && t.side.None? && v.side.None?
    && s.arm.Some? && t.arm.Some? && v.arm.Some?
    && s.arm.value > t.arm.value + PAIR_MAX_ARM_DELTA_FT && t.arm.value > v.arm.value + PAIR_MAX_ARM_DELTA_FT
  }

  lemma FileStations(s: Station, t: Station, v: Station)
    requires SingleFile(s, t, v)
    ensures var p := [s, t, v];
            Resolve(p, [1, 3, 5]) == p && Lookup(p, 1) == Some(s) && Lookup(p, 3) == Some(t) && Lookup(p, 5) == Some(v)
  {
    var p := [s, t, v];
    assert p[1..] == [t, v] && p[1..][1..] == [v];
    assert Lookup(p, 3) == Lookup(p[1..], 3);
    assert Lookup(p, 5) == Lookup(p[1..], 5) == Lookup(p[1..][1..], 5);
    assert [1, 3, 5][1..] == [3, 5] && [3, 5][1..] == [5] && [5][1..] == [];
    assert Resolve(p, [5]) == [v];
    assert Resolve(p, [3, 5]) == [t, v];
  }

  lemma NotMates(s: Station, t: Station)
    requires s.arm.Some? && t.arm.Some? && s.arm.value > t.arm.value + PAIR_MAX_ARM_DELTA_FT
    requires s.side.None? && t.side.None? && t.index > s.index + 1
    ensures !Mates(s, t) && !Mates(t, s)
  {
    assert ArmKey(s) > ArmKey(t);
  }

  lemma NoReason(s: Station, t: Station, v: Station, i: int, j: int)
    requires SingleFile(s, t, v) && i != j
    ensures !Justified([s, t, v], i, j)
  {
    NotMates(s, t);
    NotMates(s, v);
    NotMates(t, v);
  }

  lemma NoRows(s: Station, t: Station, v: Station)
    requires SingleFile(s, t, v)
    ensures Rows([s, t, v], [1, 3, 5]) == []
  {
    FileStations(s, t, v);
    RowsAreSound([s, t, v], [1, 3, 5]);
    var rows := Rows([s, t, v], [1, 3, 5]);
    if rows != [] {
      assert rows[0] in rows;
      NoReason(s, t, v, rows[0].0, rows[0].1);
      assert false;
    }
  }

  lemma NoseFirst(s: Station, t: Station, v: Station)
    requires SingleFile(s, t, v)
    ensures ForwardFirst([s, t, v], [1, 3, 5]) == [1, 3, 5]
  {
    FileStations(s, t, v);
    SortIdle([s, t, v], ArmDescending);
  }

  lemma FileOrder(s: Station, t: Station, v: Station)
    requires SingleFile(s, t, v)
    ensures CourseOf([s, t, v], [1, 3, 5], Forward) == Course([s, t, v], [1, 3, 5], [], Forward)
  {
    NoseFirst(s, t, v);
    NoRows(s, t, v);
  }

  lemma FileMoves(c: Course, s: Station, t: Station, v: Station)
    requires SingleFile(s, t, v) && c == Course([s, t, v], [1, 3, 5], [], Forward)
    ensures Allowed(c, 5, 3) && Allowed(c, 5, 1) && Allowed(c, 3, 1)
    ensures !Allowed(c, 5, 5) && !Allowed(c, 3, 3) && !Allowed(c, 1, 1) && !Allowed(c, 3, 5) && !Allowed(c, 1, 3) && !Allowed(c, 1, 5)
  {
    FileStations(s, t, v);
    assert [1, 3, 5][1..] == [3, 5] && [3, 5][1..] == [5];
    assert IndexOf([5], 5) == 0 && IndexOf([3, 5], 5) == 1 && IndexOf([1, 3, 5], 5) == 2;
    assert IndexOf([3, 5], 3) == 0 && IndexOf([1, 3, 5], 3) == 1 && IndexOf([1, 3, 5], 1) == 0;
  }

  lemma DeferredTargets()
    ensures Targets([1, 3, 5], Forward, {1}) == [3, 5, 1] && Sources([1, 3, 5], Forward) == [5, 3, 1]
  {
    assert [1, 3, 5][1..] == [3, 5] && [3, 5][1..] == [5] && [5][1..] == [];
    assert Without([5], {1}) == [5] && Without([3, 5], {1}) == [3, 5] && Without([1, 3, 5], {1}) == [3, 5];
    assert Only([5], {1}) == [] && Only([3, 5], {1}) == [] && Only([1, 3, 5], {1}) == [1];
  }

  function MoveIf(c: Course, src: int, dst: int): seq<Move> {
    if Allowed(c, src, dst) then [(src, dst)] else []
  }

  lemma MovesToThree(c: Course, src: int, a: int, b: int, d: int)
    ensures MovesFrom(c, src, [a, b, d]) == MoveIf(c, src, a) + MoveIf(c, src, b) + MoveIf(c, src, d)
  {
    assert [a, b, d][1..] == [b, d] && [b, d][1..] == [d] && [d][1..] == [];
    assert MovesFrom(c, src, [d]) == MoveIf(c, src, d);
    assert MovesFrom(c, src, [b, d]) == MoveIf(c, src, b) + MoveIf(c, src, d);
  }

  lemma MovesOfThree(c: Course, a: int, b: int, d: int, ts: seq<int>)
    ensures AllMoves(c, [a, b, d], ts) == MovesFrom(c, a, ts) + MovesFrom(c, b, ts) + MovesFrom(c, d, ts)
  {
    assert [a, b, d][1..] == [b, d] && [b, d][1..] == [d] && [d][1..] == [];
    assert AllMoves(c, [d], ts) == MovesFrom(c, d, ts);
    assert AllMoves(c, [b, d], ts) == MovesFrom(c, b, ts) + MovesFrom(c, d, ts);
  }

  /** Crew seat 1 deferred: station 5 is tried on 3 and then on 1, and station 3 on 1. */
  lemma MovesInFile(s: Station, t: Station, v: Station)
    requires SingleFile(s, t, v)
    ensures MovesOf([s, t, v], [1, 3, 5], Forward, {1}) == [(5, 3), (5, 1), (3, 1)]
  {
    var c := Course([s, t, v], [1, 3, 5], [], Forward);
    FileOrder(s, t, v);
    FileMoves(c, s, t, v);
    DeferredTargets();
    MovesToThree(c, 5, 3, 5, 1);
    MovesToThree(c, 3, 3, 5, 1);
    MovesToThree(c, 1, 3, 5, 1);
    MovesOfThree(c, 5, 3, 1, [3, 5, 1]);
  }

  lemma ThreeMoves(s: Shift, cap: Load, minRetain: Load, a: Move, b: Move, c: Move) returns (one: Shift, two: Shift, end: Shift)
    ensures one == Step(s, cap, minRetain, a) && two == Step(one, cap, minRetain, b) && end == Step(two, cap, minRetain, c)
    ensures end == Run(s, cap, minRetain, [a, b, c])
  {
    one := Step(s, cap, minRetain, a);
    two := Step(one, cap, minRetain, b);
    end := Step(two, cap, minRetain, c);
    assert [a, b, c][1..] == [b, c] && [b, c][1..] == [c] && [c][1..] == [];
    assert Run(end, cap, minRetain, []) == end;
    assert Run(two, cap, minRetain, [c]) == end;
    assert Run(one, cap, minRetain, [b, c]) == end;
  }

  /** Seat 5 holds 100 lb, and seats of 500 lb ask for 150. */
  ghost predicate Crewed(w: Load, cap: Load, minRetain: Load) {
    && w == map[1 := 170.0, 3 := 0.0, 5 := 100.0] && minRetain == map[1 := 170.0]
    && At(cap, 1) == 500.0 && At(cap, 3) == 500.0 && At(cap, 5) == 500.0
  }

  lemma RunInFile(w: Load, cap: Load, minRetain: Load) returns (end: Shift)
    requires Crewed(w, cap, minRetain)
    ensures end == Run(Shift(w, 150.0, 0.0), cap, minRetain, [(5, 3), (5, 1), (3, 1)])
    ensures At(end.w, 1) == 220.0 && At(end.w, 3) == 50.0 && At(end.w, 5) == 0.0
  {
    var one, two;
    one, two, end := ThreeMoves(Shift(w, 150.0, 0.0), cap, minRetain, (5, 3), (5, 1), (3, 1));
    assert one.remaining == 50.0 && At(one.w, 1) == 170.0 && At(one.w, 3) == 100.0 && At(one.w, 5) == 0.0;
    assert two == one;
  }

  lemma FileCaps(s: Station, t: Station, v: Station) returns (p: Profile, cap: Load)
    requires SingleFile(s, t, v) && s.maxLoad == t.maxLoad == v.maxLoad == 500.0
    ensures p == [s, t, v] && cap == ShiftCaps(p, map[], [1, 3, 5])
    ensures At(cap, 1) == 500.0 && At(cap, 3) == 500.0 && At(cap, 5) == 500.0
  {
    p, cap := [s, t, v], ShiftCaps([s, t, v], map[], [1, 3, 5]);
    FileStations(s, t, v);
  }

  lemma FileShift(w: Load, p: Profile, ids: seq<int>, asked: real, minRetain: Load, deferred: set<int>, moves: seq<Move>)
    requires |ids| >= 2 && RoundLb(asked) == asked > 0.0 && Rows(p, ids) == [] && moves == MovesOf(p, ids, Forward, deferred)
    ensures Shifted(w, p, ids, Forward, asked, minRetain, map[], deferred)
         == Run(Shift(w, asked, 0.0), ShiftCaps(p, map[], ids), minRetain, moves).w
  {
    NoRowsNoBalance(w, p, ids, Forward, asked, minRetain, map[], deferred);
  }

  /** Station 5 alone is above its floor and feeds 3 first. The 50 lb it lacks then come from station 3, which
      ends with room while the deferred crew seat has gained. */
  lemma DeferredSeatGains(s: Station, t: Station, v: Station, w: Load, minRetain: Load)
    requires SingleFile(s, t, v) && s.maxLoad == t.maxLoad == v.maxLoad == 500.0
    requires w == map[1 := 170.0, 3 := 0.0, 5 := 100.0] && minRetain == map[1 := 170.0]
    ensures var r := Shifted(w, [s, t, v], [1, 3, 5], Forward, 150.0, minRetain, map[], {1});
            At(r, 1) == 220.0 && At(r, 3) == 50.0 && At(r, 5) == 0.0
  {
    var p, cap := FileCaps(s, t, v);
    assert Whole(150.0);
    RoundWhole(150.0);
    MovesInFile(s, t, v);
    var end := RunInFile(w, cap, minRetain);
    NoRows(s, t, v);
    FileShift(w, p, [1, 3, 5], 150.0, minRetain, {1}, [(5, 3), (5, 1), (3, 1)]);
  }
}

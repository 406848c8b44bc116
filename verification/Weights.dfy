/** Pound quantities on payload stations: lookup, totals over index lists, and the
    rounding the load planner applies. A quantity is a real number, as it is in the source
    up to floating-point rounding; `Whole` singles out the integral ones. */
module {:induction false} Weights {

  /** Station index to pounds. A missing key reads as 0, as `?? 0` does in the source. */
  type Load = map<int, real>

  function At(w: Load, i: int): real {
    if i in w then w[i] else 0.0
  }

  function Min(a: real, b: real): real {
    if a <= b then a else b
  }

  function Max(a: real, b: real): real {
    if a <= b then b else a
  }

  /** Round half up to the next whole number. */
  function RoundLb(x: real): real {
    (x + 0.5).Floor as real
  }

  ghost predicate Whole(x: real) {
    x == x.Floor as real
  }

  ghost predicate WholeOn(w: Load, ids: seq<int>) {
    forall i <- ids :: Whole(At(w, i))
  }

  ghost predicate NoDup<T(!new)>(s: seq<T>) {
    forall j, k :: 0 <= j < k < |s| ==> s[j] != s[k]
  }

  ghost predicate Within(ids: seq<int>, all: seq<int>) {
    forall i <- ids :: i in all
  }

  /** Sum of the quantities at the listed indexes. */
  function Sum(w: Load, ids: seq<int>): real {
    if ids == [] then 0.0 else At(w, ids[0]) + Sum(w, ids[1..])
  }

  /** Unused capacity over the listed indexes. */
  function Room(w: Load, cap: Load, ids: seq<int>): real {
    if ids == [] then 0.0
    else Max(0.0, At(cap, ids[0]) - At(w, ids[0])) + Room(w, cap, ids[1..])
  }

  /** Longitudinal moment, the sum of arm times weight. */
  function Moment(w: Load, arm: Load, ids: seq<int>): real {
    if ids == [] then 0.0
    else At(arm, ids[0]) * At(w, ids[0]) + Moment(w, arm, ids[1..])
  }

  lemma FloorIs(x: real, n: int)
    requires n as real <= x < n as real + 1.0
    ensures x.Floor == n
  {
  }

  lemma RoundWhole(x: real)
    ensures Whole(RoundLb(x))
    ensures x - 0.5 < RoundLb(x) <= x + 0.5
    ensures Whole(x) ==> RoundLb(x) == x
  {
    var n := (x + 0.5).Floor;
    FloorIs(n as real, n);
    if Whole(x) {
      FloorIs(x + 0.5, x.Floor);
    }
  }

  lemma WholeSum(a: real, b: real)
    requires Whole(a) && (Whole(b) || Whole(-b))
    ensures Whole(b) && Whole(-b) && Whole(a + b)
  {
    if Whole(b) {
      FloorIs(-b, -b.Floor);
    } else {
      FloorIs(b, -(-b).Floor);
    }
    FloorIs(a + b, a.Floor + b.Floor);
  }

  lemma {:induction false} SumFrame(w: Load, v: Load, ids: seq<int>)
    requires forall i <- ids :: At(w, i) == At(v, i)
    ensures Sum(w, ids) == Sum(v, ids)
  {
    if ids != [] {
      SumFrame(w, v, ids[1..]);
    }
  }

  /** Writing one listed index changes the total by exactly the difference. */
  lemma {:induction false} SumUpdate(w: Load, i: int, x: real, ids: seq<int>)
    requires NoDup(ids) && i in ids
    ensures Sum(w[i := x], ids) == Sum(w, ids) - At(w, i) + x
  {
    if ids[0] == i {
      SumFrame(w, w[i := x], ids[1..]);
    } else {
      SumUpdate(w, i, x, ids[1..]);
    }
  }

  lemma {:induction false} RoomFrame(w: Load, v: Load, cap: Load, ids: seq<int>)
    requires forall i <- ids :: At(w, i) == At(v, i)
    ensures Room(w, cap, ids) == Room(v, cap, ids)
  {
    if ids != [] {
      RoomFrame(w, v, cap, ids[1..]);
    }
  }

  lemma {:induction false} RoomUpdate(w: Load, cap: Load, i: int, x: real, ids: seq<int>)
    requires NoDup(ids) && i in ids
    ensures Room(w[i := x], cap, ids)
         == Room(w, cap, ids) - Max(0.0, At(cap, i) - At(w, i)) + Max(0.0, At(cap, i) - x)
  {
    if ids[0] == i {
      RoomFrame(w, w[i := x], cap, ids[1..]);
    } else {
      RoomUpdate(w, cap, i, x, ids[1..]);
    }
  }

  lemma {:induction false} RoomSign(w: Load, cap: Load, ids: seq<int>)
    ensures Room(w, cap, ids) >= 0.0
    ensures Room(w, cap, ids) == 0.0 <==> forall i <- ids :: At(cap, i) <= At(w, i)
  {
    if ids != [] {
      RoomSign(w, cap, ids[1..]);
      assert ids == [ids[0]] + ids[1..];
    }
  }

  /** Below the caps everywhere, room is capacity minus load. */
  lemma {:induction false} RoomIsSlack(w: Load, cap: Load, ids: seq<int>)
    requires forall i <- ids :: At(w, i) <= At(cap, i)
    ensures Room(w, cap, ids) == Sum(cap, ids) - Sum(w, ids)
  {
    if ids != [] {
      RoomIsSlack(w, cap, ids[1..]);
    }
  }

  lemma {:induction false} MomentFrame(w: Load, v: Load, arm: Load, ids: seq<int>)
    requires forall i <- ids :: At(w, i) == At(v, i)
    ensures Moment(w, arm, ids) == Moment(v, arm, ids)
  {
    if ids != [] {
      MomentFrame(w, v, arm, ids[1..]);
    }
  }

  /** Adding `d` pounds at station `i` adds `arm * d` to the moment. */
  lemma {:induction false} MomentAdd(w: Load, arm: Load, i: int, d: real, ids: seq<int>)
    requires NoDup(ids) && i in ids
    ensures Moment(w[i := At(w, i) + d], arm, ids) == Moment(w, arm, ids) + At(arm, i) * d
  {
    if ids[0] == i {
      MomentFrame(w, w[i := At(w, i) + d], arm, ids[1..]);
    } else {
      MomentAdd(w, arm, i, d, ids[1..]);
    }
  }

  /** The load after moving `d` pounds from station `src` to station `dst`. */
  function Transfer(w: Load, src: int, dst: int, d: real): Load {
    w[src := At(w, src) - d][dst := At(w, dst) + d]
  }

  lemma TransferTwice(w: Load, src: int, dst: int, d: real) returns (v: Load, u: Load)
    requires src != dst
    ensures v == w[src := At(w, src) + -d] && u == v[dst := At(v, dst) + d] && u == Transfer(w, src, dst, d)
  {
    v := w[src := At(w, src) + -d];
    u := v[dst := At(v, dst) + d];
  }

  lemma TwoLevers(x: real, y: real, a: real, b: real, d: real)
    requires x == a * -d && y == b * d
    ensures x + y == (b - a) * d
  {
  }

  lemma MomentAdds(w: Load, v: Load, arm: Load, i: int, d: real, ids: seq<int>) returns (x: real)
    requires NoDup(ids) && i in ids && v == w[i := At(w, i) + d]
    ensures x == At(arm, i) * d && Moment(v, arm, ids) == Moment(w, arm, ids) + x
  {
    x := At(arm, i) * d;
    MomentAdd(w, arm, i, d, ids);
  }

  lemma NoArmGap(gap: real, d: real)
    requires gap == 0.0
    ensures gap * d == 0.0
  {
  }

  /** Two additions one after the other. */
  lemma MomentOfTwo(w: Load, v: Load, u: Load, arm: Load, src: int, dst: int, d: real, ids: seq<int>)
    returns (x: real, y: real)
    requires NoDup(ids) && src in ids && dst in ids
    requires v == w[src := At(w, src) + -d] && u == v[dst := At(v, dst) + d]
    ensures x == At(arm, src) * -d && y == At(arm, dst) * d
    ensures Moment(u, arm, ids) == Moment(w, arm, ids) + x + y
  {
    x := MomentAdds(w, v, arm, src, -d, ids);
    y := MomentAdds(v, u, arm, dst, d, ids);
  }

  lemma TransferMoment(w: Load, arm: Load, src: int, dst: int, d: real, ids: seq<int>)
    requires NoDup(ids) && src in ids && dst in ids && src != dst
    ensures Moment(Transfer(w, src, dst, d), arm, ids)
         == Moment(w, arm, ids) + (At(arm, dst) - At(arm, src)) * d
  {
    var v, u := TransferTwice(w, src, dst, d);
    var x, y := MomentOfTwo(w, v, u, arm, src, dst, d, ids);
    assert x + y == (At(arm, dst) - At(arm, src)) * d by {
      TwoLevers(x, y, At(arm, src), At(arm, dst), d);
    }
  }

  lemma TransferBy(w: Load, v: Load, arm: Load, src: int, dst: int, d: real, ids: seq<int>) returns (m: real)
    requires NoDup(ids) && src in ids && dst in ids && src != dst && v == Transfer(w, src, dst, d)
    ensures m == (At(arm, dst) - At(arm, src)) * d && Moment(v, arm, ids) == Moment(w, arm, ids) + m
  {
    m := (At(arm, dst) - At(arm, src)) * d;
    TransferMoment(w, arm, src, dst, d, ids);
  }

  lemma Leverage(gain: real, d: real)
    requires gain >= 0.05 && d >= 0.0
    ensures gain * d >= 0.05 * d
  {
  }

  /** A transfer over at least 0.05 ft of arm. */
  lemma TransferGains(w: Load, arm: Load, src: int, dst: int, d: real, ids: seq<int>)
    requires NoDup(ids) && src in ids && dst in ids && src != dst
    requires At(arm, dst) - At(arm, src) >= 0.05 && d >= 0.0
    ensures Moment(Transfer(w, src, dst, d), arm, ids) >= Moment(w, arm, ids) + 0.05 * d
  {
    TransferMoment(w, arm, src, dst, d, ids);
    Leverage(At(arm, dst) - At(arm, src), d);
  }

  lemma TransferLevel(w: Load, arm: Load, src: int, dst: int, d: real, ids: seq<int>)
    requires NoDup(ids) && src in ids && dst in ids && src != dst
    requires At(arm, src) == At(arm, dst)
    ensures Moment(Transfer(w, src, dst, d), arm, ids) == Moment(w, arm, ids)
  {
    TransferMoment(w, arm, src, dst, d, ids);
    NoArmGap(At(arm, dst) - At(arm, src), d);
  }

  lemma TransferSum(w: Load, src: int, dst: int, d: real, ids: seq<int>)
    requires NoDup(ids) && src in ids && dst in ids && src != dst
    ensures Sum(Transfer(w, src, dst, d), ids) == Sum(w, ids)
  {
    SumUpdate(w, src, At(w, src) - d, ids);
    SumUpdate(w[src := At(w, src) - d], dst, At(w, dst) + d, ids);
  }

  lemma {:induction false} SumAppend(w: Load, a: seq<int>, b: seq<int>)
    ensures Sum(w, a + b) == Sum(w, a) + Sum(w, b)
  {
    if a == [] {
      assert a + b == b;
    } else {
      assert (a + b)[1..] == a[1..] + b;
      SumAppend(w, a[1..], b);
    }
  }

  lemma {:induction false} RoomAppend(w: Load, cap: Load, a: seq<int>, b: seq<int>)
    ensures Room(w, cap, a + b) == Room(w, cap, a) + Room(w, cap, b)
  {
    if a == [] {
      assert a + b == b;
    } else {
      assert (a + b)[1..] == a[1..] + b;
      RoomAppend(w, cap, a[1..], b);
    }
  }
}

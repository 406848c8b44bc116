/** One filling stage of the cargo planner: water-fill a group of stations, then balance its
    rows. Stated once for seats, baggage and placement rounds. */
module {:induction false} FillStage {
  import opened Options
  import opened Weights
  import opened Stations
  import opened WaterFill
  import opened LateralRows
  import opened CgShiftLaws

  /** Whole pounds within whole caps on the listed stations, none above its start floor. */
  ghost predicate StageReady(w: Load, p: Profile, ids: seq<int>, minRetain: Load, softMax: Load) {
    && NoDup(ids)
    && (forall i <- ids :: i in w && 0.0 <= w[i] <= EffectiveCap(p, softMax, i))
    && (forall i <- ids :: i in minRetain ==> minRetain[i] <= w[i])
    && WholeOn(w, ids) && WholeOn(Caps(p, softMax, ids), ids)
  }

  lemma CapsAt(p: Profile, softMax: Load, ids: seq<int>, i: int)
    requires i in ids
    ensures At(Caps(p, softMax, ids), i) == EffectiveCap(p, softMax, i)
  {
  }

  lemma StagePours(w: Load, p: Profile, ids: seq<int>, amount: real, minRetain: Load, softMax: Load)
    requires StageReady(w, p, ids, minRetain, softMax) && Whole(amount)
    ensures Equalized(w, p, ids, amount, minRetain, softMax) == Pour(w, Caps(p, softMax, ids), ids, Max(0.0, amount))
  {
    SettleIdentity(w, Caps(p, softMax, ids), minRetain, ids);
    RoundWhole(amount);
  }

  /** The fill stays between the old weight and the cap and leaves other stations alone. */
  lemma StageFillBounds(w: Load, p: Profile, ids: seq<int>, amount: real, minRetain: Load, softMax: Load, i: int)
    requires StageReady(w, p, ids, minRetain, softMax) && Whole(amount)
    ensures var e := Equalized(w, p, ids, amount, minRetain, softMax);
            && At(w, i) <= At(e, i)
            && (i in ids ==> At(e, i) <= EffectiveCap(p, softMax, i) && Whole(At(e, i)))
            && (i !in ids ==> At(e, i) == At(w, i))
  {
    var caps := Caps(p, softMax, ids);
    StagePours(w, p, ids, amount, minRetain, softMax);
    PourBounds(w, caps, ids, Max(0.0, amount), i);
    if i in ids {
      assert Whole(0.0);
      assert Whole(At(w, i));
      PourWhole(w, caps, ids, Max(0.0, amount), i);
    }
  }

  lemma StageFillKeys(w: Load, p: Profile, ids: seq<int>, amount: real, minRetain: Load, softMax: Load)
    requires StageReady(w, p, ids, minRetain, softMax) && Whole(amount)
    ensures Equalized(w, p, ids, amount, minRetain, softMax).Keys == w.Keys
  {
    StagePours(w, p, ids, amount, minRetain, softMax);
    PourKeys(w, Caps(p, softMax, ids), ids, Max(0.0, amount));
  }

  /** The fill places the amount, or all the room there is. */
  lemma StageFillPlaces(w: Load, p: Profile, ids: seq<int>, amount: real, minRetain: Load, softMax: Load, all: seq<int>)
    requires StageReady(w, p, ids, minRetain, softMax) && Whole(amount)
    requires NoDup(all) && Within(ids, all)
    ensures Sum(Equalized(w, p, ids, amount, minRetain, softMax), all)
         == Sum(w, all) + Min(Max(0.0, amount), Room(w, Caps(p, softMax, ids), ids))
  {
    StagePours(w, p, ids, amount, minRetain, softMax);
    PourPlaces(w, Caps(p, softMax, ids), ids, Max(0.0, amount), all);
  }

  /** Balancing whole, in-cap weights keeps the total, the bounds and the other stations. */
  lemma StageBalances(e: Load, p: Profile, ids: seq<int>, softMax: Load, all: seq<int>)
    requires NoDup(all) && Within(ids, all) && WholeOn(e, ids)
    requires forall i <- ids :: 0.0 <= At(e, i) <= EffectiveCap(p, softMax, i)
    ensures Sum(Balanced(e, p, ids, softMax), all) == Sum(e, all)
  {
    var caps, rows := Caps(p, softMax, ids), Rows(p, ids);
    RowsPartition(p, ids);
    WholeRowsFit(e, caps, rows, ids);
    forall r <- rows ensures r.0 in all && r.1 in all {
      assert r.0 in ids && r.1 in ids;
    }
    EvenRowsKeep(e, caps, map[], rows, all);
  }

  lemma StageBalanceBounds(e: Load, p: Profile, ids: seq<int>, softMax: Load, i: int)
    requires WholeOn(e, ids)
    requires forall i <- ids :: 0.0 <= At(e, i) <= EffectiveCap(p, softMax, i)
    ensures var b := Balanced(e, p, ids, softMax);
            && (i !in ids ==> At(b, i) == At(e, i))
            && (i in ids ==> 0.0 <= At(b, i) <= EffectiveCap(p, softMax, i))
  {
    var caps, rows := Caps(p, softMax, ids), Rows(p, ids);
    RowsPartition(p, ids);
    if i in ids {
      WholeRowsFit(e, caps, rows, ids);
      EvenRowsBounds(e, caps, rows, i);
    } else {
      EvenRowsElsewhere(e, caps, rows, i);
    }
  }

  lemma StageBalanceKeys(e: Load, p: Profile, ids: seq<int>, softMax: Load)
    requires forall i <- ids :: i in e
    ensures Balanced(e, p, ids, softMax).Keys == e.Keys
  {
    RowsPartition(p, ids);
    EvenRowsKeys(e, Caps(p, softMax, ids), Rows(p, ids));
  }

  /** Balancing splits whole totals into whole weights when the caps are whole. */
  lemma StageBalanceWhole(e: Load, p: Profile, ids: seq<int>, softMax: Load, i: int)
    requires WholeOn(e, ids) && WholeOn(Caps(p, softMax, ids), ids) && i in ids
    ensures Whole(At(Balanced(e, p, ids, softMax), i))
  {
    var caps, rows := Caps(p, softMax, ids), Rows(p, ids);
    RowsPartition(p, ids);
    if InRows(rows, i) {
      var row :| row in rows && (row.0 == i || row.1 == i);
      EvenRowsAt(e, caps, rows, row);
      assert row.0 in ids && row.1 in ids;
      EvenRowWhole(e, caps, row, i);
    } else {
      EvenRowsElsewhere(e, caps, rows, i);
    }
  }

  lemma EvenRowWhole(w: Load, cap: Load, row: Row, i: int)
    requires row.0 != row.1 && (i == row.0 || i == row.1)
    requires Whole(At(cap, row.0)) && Whole(At(cap, row.1))
    ensures Whole(At(EvenRow(w, cap, row), i))
  {
    var z := w[row.0 := 0.0][row.1 := 0.0];
    var ids := [row.0, row.1];
    RoundWhole(Max(0.0, At(w, row.0)) + Max(0.0, At(w, row.1)));
    assert Whole(0.0);
    assert WholeOn(z, ids) && WholeOn(cap, ids);
    PourWhole(z, cap, ids, RowTotal(w, row), i);
  }

  /** Equal totals under pointwise bounds leave no slack anywhere. */
  lemma {:induction false} SumTight(w: Load, v: Load, ids: seq<int>)
    requires forall i <- ids :: At(w, i) <= At(v, i)
    ensures Sum(w, ids) <= Sum(v, ids)
    ensures Sum(w, ids) == Sum(v, ids) ==> forall i <- ids :: At(w, i) == At(v, i)
  {
    if ids != [] {
      SumTight(w, v, ids[1..]);
      assert ids == [ids[0]] + ids[1..];
    }
  }

  /** When the amount does not fit, every station of the stage ends exactly at its cap. */
  lemma StageFull(w: Load, p: Profile, ids: seq<int>, amount: real, minRetain: Load, softMax: Load, i: int)
    requires StageReady(w, p, ids, minRetain, softMax) && Whole(amount) && i in ids
    requires Room(w, Caps(p, softMax, ids), ids) <= amount
    ensures var e := Equalized(w, p, ids, amount, minRetain, softMax);
            At(Balanced(e, p, ids, softMax), i) == EffectiveCap(p, softMax, i)
  {
    var caps := Caps(p, softMax, ids);
    var e := Equalized(w, p, ids, amount, minRetain, softMax);
    var b := Balanced(e, p, ids, softMax);
    RoomSign(w, caps, ids);
    RoomIsSlack(w, caps, ids);
    StageFillPlaces(w, p, ids, amount, minRetain, softMax, ids);
    StageFillReady(w, p, ids, amount, minRetain, softMax);
    StageBalances(e, p, ids, softMax, ids);
    forall k <- ids ensures At(b, k) <= At(caps, k) {
      StageBalanceBounds(e, p, ids, softMax, k);
    }
    SumTight(b, caps, ids);
  }

  lemma StageFillReady(w: Load, p: Profile, ids: seq<int>, amount: real, minRetain: Load, softMax: Load)
    requires StageReady(w, p, ids, minRetain, softMax) && Whole(amount)
    ensures var e := Equalized(w, p, ids, amount, minRetain, softMax);
            WholeOn(e, ids) && forall i <- ids :: 0.0 <= At(e, i) <= EffectiveCap(p, softMax, i)
  {
    var e := Equalized(w, p, ids, amount, minRetain, softMax);
    forall i <- ids ensures Whole(At(e, i)) && 0.0 <= At(e, i) <= EffectiveCap(p, softMax, i) {
      StageFillBounds(w, p, ids, amount, minRetain, softMax, i);
      assert At(w, i) == w[i];
    }
  }

  /** Layout after one stage: the fill, then the rows. */
  function Staged(w: Load, p: Profile, ids: seq<int>, amount: real, minRetain: Load, softMax: Load): Load {
    Balanced(Equalized(w, p, ids, amount, minRetain, softMax), p, ids, softMax)
  }

  /** The whole stage: what it adds over any list of stations that contains its own. */
  lemma StagePlaces(w: Load, p: Profile, ids: seq<int>, amount: real, minRetain: Load, softMax: Load, all: seq<int>)
    requires StageReady(w, p, ids, minRetain, softMax) && Whole(amount)
    requires NoDup(all) && Within(ids, all)
    ensures Sum(Staged(w, p, ids, amount, minRetain, softMax), all)
         == Sum(w, all) + Min(Max(0.0, amount), Room(w, Caps(p, softMax, ids), ids))
    ensures Staged(w, p, ids, amount, minRetain, softMax).Keys == w.Keys
  {
    var e := Equalized(w, p, ids, amount, minRetain, softMax);
    StageFillPlaces(w, p, ids, amount, minRetain, softMax, all);
    StageFillReady(w, p, ids, amount, minRetain, softMax);
    StageBalances(e, p, ids, softMax, all);
    StageFillKeys(w, p, ids, amount, minRetain, softMax);
    StageBalanceKeys(e, p, ids, softMax);
  }

  /** Where each station ends. */
  lemma StageBounds(w: Load, p: Profile, ids: seq<int>, amount: real, minRetain: Load, softMax: Load, i: int)
    requires StageReady(w, p, ids, minRetain, softMax) && Whole(amount)
    ensures var b := Staged(w, p, ids, amount, minRetain, softMax);
            && (i !in ids ==> At(b, i) == At(w, i))
            && (i in ids ==> 0.0 <= At(b, i) <= EffectiveCap(p, softMax, i) && Whole(At(b, i)))
  {
    var e := Equalized(w, p, ids, amount, minRetain, softMax);
    StageFillReady(w, p, ids, amount, minRetain, softMax);
    StageFillBounds(w, p, ids, amount, minRetain, softMax, i);
    StageBalanceBounds(e, p, ids, softMax, i);
    if i in ids {
      StageBalanceWhole(e, p, ids, softMax, i);
    }
  }
}

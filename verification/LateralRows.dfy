/** Left/right rows of payload stations: how `findLateralStationGroups` infers them and how
    `equalizeLateralStationPairs` balances each row. */
module {:induction false} LateralRows {
  import opened Options
  import opened Weights
  import opened Stations
  import opened WaterFill
  import opened Sorting

  /** A row: the lower and the higher station index. */
  type Row = (int, int)

  const PAIR_MAX_ARM_DELTA_FT := 2.0
  const SAME_ARM_FT := 0.05

  /** The pairs found so far and the stations they use up. */
  datatype Book = Book(pairs: seq<Row>, paired: set<int>)

  function AddPair(b: Book, i: int, j: int): Book {
    if i == j || i in b.paired || j in b.paired then b
    else Book(b.pairs + [if i <= j then (i, j) else (j, i)], b.paired + {i, j})
  }

  function Abs(x: real): real {
    if x < 0.0 then -x else x
  }

  /** Arms are grouped after rounding to hundredths of a foot. */
  function ArmKey(s: Station): int
    requires s.arm.Some?
  {
    (s.arm.value * 100.0 + 0.5).Floor
  }

  function WithArm(ss: seq<Station>): (r: seq<Station>)
    ensures forall s <- r :: s.arm.Some? && s in ss
  {
    if ss == [] then []
    else (if ss[0].arm.Some? then [ss[0]] else []) + WithArm(ss[1..])
  }

  /** The groups of a keyed list, as an insertion-ordered map. */
  datatype Groups = Groups(order: seq<int>, members: map<int, seq<int>>)

  ghost predicate ValidGroups(g: Groups) {
    forall j | 0 <= j < |g.order| :: g.order[j] in g.members
  }

  function AddToGroup(g: Groups, key: int, index: int): Groups {
    if key in g.members then g.(members := g.members[key := g.members[key] + [index]])
    else Groups(g.order + [key], g.members[key := [index]])
  }

  ghost predicate HasKey(ss: seq<Station>, i: int, key: int) {
    exists s :: s in ss && s.index == i && s.arm.Some? && ArmKey(s) == key
  }

  ghost predicate HasSide(ss: seq<Station>, i: int, side: Side) {
    exists s :: s in ss && s.index == i && s.side == Some(side)
  }

  function GroupByArm(ss: seq<Station>): (g: Groups)
    requires forall s <- ss :: s.arm.Some?
    ensures ValidGroups(g)
    ensures forall k <- g.members :: forall i <- g.members[k] :: HasKey(ss, i, k)
  {
    if ss == [] then Groups([], map[])
    else
      var last := ss[|ss| - 1];
      var g := GroupByArm(ss[..|ss| - 1]);
      assert forall i, k | HasKey(ss[..|ss| - 1], i, k) :: HasKey(ss, i, k);
      assert HasKey(ss, last.index, ArmKey(last));
      AddToGroup(g, ArmKey(last), last.index)
  }

  /** Every arm shared by exactly two stations makes a row. */
  function PairGroups(b: Book, g: Groups, order: seq<int>): Book
    requires forall j | 0 <= j < |order| :: order[j] in g.members
    decreases order
  {
    if order == [] then b
    else
      var m := g.members[order[0]];
      PairGroups(if |m| == 2 then AddPair(b, m[0], m[1]) else b, g, order[1..])
  }

  predicate Unused(b: Book, s: Station) {
    s.index !in b.paired
  }

  function Leftovers(b: Book, ss: seq<Station>): (r: seq<Station>)
    ensures forall s <- r :: s in ss && Unused(b, s)
  {
    if ss == [] then []
    else (if Unused(b, ss[0]) then [ss[0]] else []) + Leftovers(b, ss[1..])
  }

  predicate ArmDescending(a: Station, b: Station) {
    a.arm.Some? && b.arm.Some? ==> a.arm.value >= b.arm.value
  }

  predicate IndexAscending(a: Station, b: Station) {
    a.index <= b.index
  }

  predicate NearArms(a: Station, b: Station) {
    a.arm.Some? && b.arm.Some? &&
    SAME_ARM_FT < Abs(a.arm.value - b.arm.value) <= PAIR_MAX_ARM_DELTA_FT
  }

  /** Neighbours with staggered arms make a row. */
  function PairNear(b: Book, ss: seq<Station>): Book
    decreases |ss|
  {
    if |ss| < 2 then b
    else if NearArms(ss[0], ss[1]) then PairNear(AddPair(b, ss[0].index, ss[1].index), ss[2..])
    else PairNear(b, ss[1..])
  }

  function OnSide(b: Book, ss: seq<Station>, side: Side): seq<int> {
    if ss == [] then []
    else (if Unused(b, ss[0]) && ss[0].side == Some(side) then [ss[0].index] else []) + OnSide(b, ss[1..], side)
  }

  predicate Ascending(a: int, b: int) {
    a <= b
  }

  /** Left seats and right seats are matched up in index order. */
  function PairSides(b: Book, lefts: seq<int>, rights: seq<int>): Book
    decreases lefts
  {
    if lefts == [] || rights == [] then b
    else PairSides(AddPair(b, lefts[0], rights[0]), lefts[1..], rights[1..])
  }

  function Cabin(b: Book, ss: seq<Station>): (r: seq<Station>)
    ensures forall s <- r :: s in ss && Unused(b, s) && !s.hold
  {
    if ss == [] then []
    else (if Unused(b, ss[0]) && !ss[0].hold then [ss[0]] else []) + Cabin(b, ss[1..])
  }

  /** Neighbouring indexes make a row. */
  function PairConsecutive(b: Book, ss: seq<Station>): Book
    decreases |ss|
  {
    if |ss| < 2 then b
    else if ss[1].index == ss[0].index + 1 then PairConsecutive(AddPair(b, ss[0].index, ss[1].index), ss[2..])
    else PairConsecutive(b, ss[1..])
  }

  function AfterArms(ss: seq<Station>): Book {
    var withArm := WithArm(ss);
    if |withArm| < 2 then Book([], {})
    else
      var g := GroupByArm(withArm);
      var b := PairGroups(Book([], {}), g, g.order);
      PairNear(b, SortBy(Leftovers(b, withArm), ArmDescending))
  }

  function WithNames(b: Book, ss: seq<Station>): Book {
    PairSides(b, SortBy(OnSide(b, ss, Left), Ascending), SortBy(OnSide(b, ss, Right), Ascending))
  }

  function AfterNames(ss: seq<Station>): Book {
    WithNames(AfterArms(ss), ss)
  }

  function FinalBook(ss: seq<Station>): Book {
    var b := AfterNames(ss);
    PairConsecutive(b, SortBy(Cabin(b, ss), IndexAscending))
  }

  /** The rows `findLateralStationGroups` finds among the listed stations. */
  function Rows(p: Profile, ids: seq<int>): seq<Row> {
    var ss := Resolve(p, ids);
    if |ss| < 2 then [] else FinalBook(ss).pairs
  }

  // ---- what the rows are ----

  /** Why two stations can be a row. */
  ghost predicate Mates(a: Station, b: Station) {
    || (a.arm.Some? && b.arm.Some? && ArmKey(a) == ArmKey(b))
    || NearArms(a, b)
    || (a.side == Some(Left) && b.side == Some(Right))
    || (a.side == Some(Right) && b.side == Some(Left))
    || ((b.index == a.index + 1 || a.index == b.index + 1) && !a.hold && !b.hold)
  }

  ghost predicate Justified(ss: seq<Station>, i: int, j: int) {
    exists a, b :: a in ss && b in ss && a.index == i && b.index == j && Mates(a, b)
  }

  /** Rows are sorted, use every station at most once, and pair mates only. */
  ghost predicate Sound(ss: seq<Station>, b: Book) {
    && (forall r <- b.pairs :: r.0 < r.1 && r.0 in b.paired && r.1 in b.paired)
    && (forall r <- b.pairs :: Justified(ss, r.0, r.1))
    && Disjoint(b.pairs)
  }

  ghost predicate Disjoint(rows: seq<Row>) {
    forall j, k :: 0 <= j < k < |rows| ==>
      rows[j].0 != rows[k].0 && rows[j].0 != rows[k].1 &&
      rows[j].1 != rows[k].0 && rows[j].1 != rows[k].1
  }

  lemma AddPairSound(ss: seq<Station>, b: Book, i: int, j: int)
    requires Sound(ss, b) && Justified(ss, i, j)
    ensures Sound(ss, AddPair(b, i, j))
  {
    var x, y :| x in ss && y in ss && x.index == i && y.index == j && Mates(x, y);
    assert Mates(y, x) && Justified(ss, j, i);
    var c := AddPair(b, i, j);
    if c != b {
      forall k | 0 <= k < |b.pairs|
        ensures b.pairs[k].0 in b.paired && b.pairs[k].1 in b.paired
      {
        assert b.pairs[k] in b.pairs;
      }
    }
  }

  lemma {:induction false} PairGroupsSound(ss: seq<Station>, b: Book, g: Groups, order: seq<int>)
    requires Sound(ss, b)
    requires forall j | 0 <= j < |order| :: order[j] in g.members
    requires forall k <- g.members :: forall i <- g.members[k] :: HasKey(ss, i, k)
    ensures Sound(ss, PairGroups(b, g, order))
    decreases order
  {
    if order != [] {
      var m := g.members[order[0]];
      var c := if |m| == 2 then AddPair(b, m[0], m[1]) else b;
      if |m| == 2 {
        assert m[0] in m && m[1] in m;
        assert HasKey(ss, m[0], order[0]) && HasKey(ss, m[1], order[0]);
        var s :| s in ss && s.index == m[0] && s.arm.Some? && ArmKey(s) == order[0];
        var t :| t in ss && t.index == m[1] && t.arm.Some? && ArmKey(t) == order[0];
        assert Mates(s, t);
        AddPairSound(ss, b, m[0], m[1]);
      }
      PairGroupsSound(ss, c, g, order[1..]);
    }
  }

  lemma {:induction false} PairNearSound(ss: seq<Station>, b: Book, xs: seq<Station>)
    requires Sound(ss, b) && forall s <- xs :: s in ss
    ensures Sound(ss, PairNear(b, xs))
    decreases |xs|
  {
    if |xs| >= 2 {
      if NearArms(xs[0], xs[1]) {
        assert Mates(xs[0], xs[1]);
        AddPairSound(ss, b, xs[0].index, xs[1].index);
        PairNearSound(ss, AddPair(b, xs[0].index, xs[1].index), xs[2..]);
      } else {
        PairNearSound(ss, b, xs[1..]);
      }
    }
  }

  lemma {:induction false} OnSideHas(b: Book, ss: seq<Station>, side: Side, i: int)
    requires i in OnSide(b, ss, side)
    ensures HasSide(ss, i, side)
  {
    if Unused(b, ss[0]) && ss[0].side == Some(side) && ss[0].index == i {
      assert ss[0] in ss;
    } else {
      OnSideHas(b, ss[1..], side, i);
      var s :| s in ss[1..] && s.index == i && s.side == Some(side);
      assert s in ss;
    }
  }

  lemma {:induction false} PairSidesSound(ss: seq<Station>, b: Book, lefts: seq<int>, rights: seq<int>)
    requires Sound(ss, b)
    requires forall i <- lefts :: HasSide(ss, i, Left)
    requires forall i <- rights :: HasSide(ss, i, Right)
    ensures Sound(ss, PairSides(b, lefts, rights))
    decreases lefts
  {
    if lefts != [] && rights != [] {
      assert lefts[0] in lefts && rights[0] in rights;
      assert HasSide(ss, lefts[0], Left) && HasSide(ss, rights[0], Right);
      var s :| s in ss && s.index == lefts[0] && s.side == Some(Left);
      var t :| t in ss && t.index == rights[0] && t.side == Some(Right);
      assert Mates(s, t);
      AddPairSound(ss, b, lefts[0], rights[0]);
      PairSidesSound(ss, AddPair(b, lefts[0], rights[0]), lefts[1..], rights[1..]);
    }
  }

  lemma {:induction false} PairConsecutiveSound(ss: seq<Station>, b: Book, xs: seq<Station>)
    requires Sound(ss, b) && forall s <- xs :: s in ss && !s.hold
    ensures Sound(ss, PairConsecutive(b, xs))
    decreases |xs|
  {
    if |xs| >= 2 {
      if xs[1].index == xs[0].index + 1 {
        assert Mates(xs[0], xs[1]);
        AddPairSound(ss, b, xs[0].index, xs[1].index);
        PairConsecutiveSound(ss, AddPair(b, xs[0].index, xs[1].index), xs[2..]);
      } else {
        PairConsecutiveSound(ss, b, xs[1..]);
      }
    }
  }

  lemma AfterArmsSound(ss: seq<Station>)
    ensures Sound(ss, AfterArms(ss))
  {
    var withArm := WithArm(ss);
    if |withArm| >= 2 {
      var g := GroupByArm(withArm);
      forall k <- g.members, i <- g.members[k] ensures HasKey(ss, i, k) {
        assert HasKey(withArm, i, k);
      }
      PairGroupsSound(ss, Book([], {}), g, g.order);
      var b := PairGroups(Book([], {}), g, g.order);
      var xs := SortBy(Leftovers(b, withArm), ArmDescending);
      forall s <- xs ensures s in ss {
        SortHas(Leftovers(b, withArm), ArmDescending, s);
      }
      PairNearSound(ss, b, xs);
    }
  }

  lemma AfterNamesSound(ss: seq<Station>)
    ensures Sound(ss, AfterNames(ss))
  {
    AfterArmsSound(ss);
    NamesSound(ss, AfterArms(ss));
  }

  lemma NamesSound(ss: seq<Station>, b: Book)
    requires Sound(ss, b)
    ensures Sound(ss, WithNames(b, ss))
  {
    var lefts, rights := SortBy(OnSide(b, ss, Left), Ascending), SortBy(OnSide(b, ss, Right), Ascending);
    forall i <- lefts ensures HasSide(ss, i, Left) {
      SortHas(OnSide(b, ss, Left), Ascending, i);
      OnSideHas(b, ss, Left, i);
    }
    forall i <- rights ensures HasSide(ss, i, Right) {
      SortHas(OnSide(b, ss, Right), Ascending, i);
      OnSideHas(b, ss, Right, i);
    }
    PairSidesSound(ss, b, lefts, rights);
  }

  /** Rows are pairs of distinct, known, movable stations in index order; no station is in two
      rows; and every row has one of the four reasons the source gives for pairing. */
  lemma RowsAreSound(p: Profile, ids: seq<int>)
    ensures var rows := Rows(p, ids);
            && Disjoint(rows)
            && (forall r <- rows :: r.0 < r.1 && r.0 in ids && r.1 in ids)
            && (forall r <- rows :: Known(p, r.0) && Known(p, r.1) && Justified(Resolve(p, ids), r.0, r.1))
  {
    var ss := Resolve(p, ids);
    if |ss| >= 2 {
      AfterNamesSound(ss);
      var b := AfterNames(ss);
      var xs := SortBy(Cabin(b, ss), IndexAscending);
      forall s <- xs ensures s in ss && !s.hold {
        SortHas(Cabin(b, ss), IndexAscending, s);
      }
      PairConsecutiveSound(ss, b, xs);
      forall r <- Rows(p, ids)
        ensures r.0 in ids && r.1 in ids && Known(p, r.0) && Known(p, r.1)
      {
        var x, y :| x in ss && y in ss && x.index == r.0 && y.index == r.1 && Mates(x, y);
        ResolveMember(p, ids, x);
        ResolveMember(p, ids, y);
      }
    }
  }

  lemma RowsPartition(p: Profile, ids: seq<int>)
    ensures Disjoint(Rows(p, ids)) && RowsIn(Rows(p, ids), ids)
  {
    RowsAreSound(p, ids);
  }

  // ---- balancing the rows ----

  /** One row emptied and refilled pound by pound with its rounded total. */
  function EvenRow(w: Load, cap: Load, row: Row): Load {
    Pour(w[row.0 := 0.0][row.1 := 0.0], cap, [row.0, row.1], RowTotal(w, row))
  }

  function RowTotal(w: Load, row: Row): real {
    RoundLb(Max(0.0, At(w, row.0)) + Max(0.0, At(w, row.1)))
  }

  function EvenRows(w: Load, cap: Load, rows: seq<Row>): Load
    decreases rows
  {
    if rows == [] then w else EvenRows(EvenRow(w, cap, rows[0]), cap, rows[1..])
  }

  /** A row keeps its pounds: none is negative or fractional, and both seats hold the total. */
  ghost predicate RowFits(w: Load, cap: Load, row: Row) {
    && At(w, row.0) >= 0.0 && At(w, row.1) >= 0.0
    && Whole(At(w, row.0) + At(w, row.1))
    && At(w, row.0) + At(w, row.1) <= At(cap, row.0) + At(cap, row.1)
  }

  ghost predicate CapsNonNegative(cap: Load, rows: seq<Row>) {
    forall r <- rows :: At(cap, r.0) >= 0.0 && At(cap, r.1) >= 0.0
  }

  lemma RowSums(w: Load, cap: Load, row: Row)
    ensures Sum(w, [row.0, row.1]) == At(w, row.0) + At(w, row.1)
    ensures Room(w, cap, [row.0, row.1])
         == Max(0.0, At(cap, row.0) - At(w, row.0)) + Max(0.0, At(cap, row.1) - At(w, row.1))
  {
    var ids := [row.0, row.1];
    assert ids[1..] == [row.1] && [row.1][1..] == [];
    assert Sum(w, [row.1]) == At(w, row.1);
    assert Room(w, cap, [row.1]) == Max(0.0, At(cap, row.1) - At(w, row.1));
  }

  /** A balanced row holds its rounded total, or all it can hold; neither seat passes its cap
      and the seats differ by at most a pound unless the lighter one is full. */
  lemma EvenRowShares(w: Load, cap: Load, row: Row)
    requires row.0 != row.1 && At(cap, row.0) >= 0.0 && At(cap, row.1) >= 0.0
    ensures var r := EvenRow(w, cap, row);
            && At(r, row.0) + At(r, row.1) == Min(RowTotal(w, row), At(cap, row.0) + At(cap, row.1))
            && 0.0 <= At(r, row.0) <= At(cap, row.0)
            && 0.0 <= At(r, row.1) <= At(cap, row.1)
            && (At(r, row.0) <= At(r, row.1) + 1.0 || At(r, row.1) == At(cap, row.1))
            && (At(r, row.1) <= At(r, row.0) + 1.0 || At(r, row.0) == At(cap, row.0))
  {
    var z := w[row.0 := 0.0][row.1 := 0.0];
    var ids := [row.0, row.1];
    var amount := RowTotal(w, row);
    var r := EvenRow(w, cap, row);
    assert amount >= 0.0 by { RoundWhole(Max(0.0, At(w, row.0)) + Max(0.0, At(w, row.1))); }
    PourPlaces(z, cap, ids, amount, ids);
    RowSums(z, cap, row);
    RowSums(r, cap, row);
    PourBounds(z, cap, ids, amount, row.0);
    PourBounds(z, cap, ids, amount, row.1);
    if At(r, row.0) > At(r, row.1) + 1.0 && At(r, row.1) < At(cap, row.1) {
      PourIsFair(z, cap, ids, amount, r, row.0, row.1);
    }
    if At(r, row.1) > At(r, row.0) + 1.0 && At(r, row.0) < At(cap, row.0) {
      PourIsFair(z, cap, ids, amount, r, row.1, row.0);
    }
  }

  /** Exactly when balancing a row loses nothing. */
  lemma EvenRowKeepsMassIff(w: Load, cap: Load, row: Row)
    requires row.0 != row.1 && At(cap, row.0) >= 0.0 && At(cap, row.1) >= 0.0
    requires At(w, row.0) >= 0.0 && At(w, row.1) >= 0.0
    ensures At(EvenRow(w, cap, row), row.0) + At(EvenRow(w, cap, row), row.1) == At(w, row.0) + At(w, row.1)
            <==> RowKept(w, cap, row)
  {
    EvenRowShares(w, cap, row);
    RoundWhole(At(w, row.0) + At(w, row.1));
  }

  /** Either the total is whole and fits, or it exactly fills both seats and is not rounded down. */
  ghost predicate RowKept(w: Load, cap: Load, row: Row) {
    var total := At(w, row.0) + At(w, row.1);
    var hold := At(cap, row.0) + At(cap, row.1);
    (Whole(total) && total <= hold) || (total == hold && RoundLb(total) >= total)
  }

  lemma EvenRowElsewhere(w: Load, cap: Load, row: Row, i: int)
    requires i != row.0 && i != row.1
    ensures At(EvenRow(w, cap, row), i) == At(w, i)
  {
    PourBounds(w[row.0 := 0.0][row.1 := 0.0], cap, [row.0, row.1], RowTotal(w, row), i);
  }

  /** A row's outcome depends only on the two weights of that row. */
  lemma EvenRowLocal(w: Load, v: Load, cap: Load, row: Row)
    requires At(w, row.0) == At(v, row.0) && At(w, row.1) == At(v, row.1)
    ensures At(EvenRow(w, cap, row), row.0) == At(EvenRow(v, cap, row), row.0)
    ensures At(EvenRow(w, cap, row), row.1) == At(EvenRow(v, cap, row), row.1)
  {
    SameTotal(w, v, cap, row);
  }

  ghost predicate InRows(rows: seq<Row>, i: int) {
    exists r :: r in rows && (r.0 == i || r.1 == i)
  }

  lemma {:induction false} EvenRowsElsewhere(w: Load, cap: Load, rows: seq<Row>, i: int)
    requires !InRows(rows, i)
    ensures At(EvenRows(w, cap, rows), i) == At(w, i)
    decreases rows
  {
    if rows != [] {
      assert rows[0] in rows;
      assert !InRows(rows[1..], i);
      EvenRowElsewhere(w, cap, rows[0], i);
      EvenRowsElsewhere(EvenRow(w, cap, rows[0]), cap, rows[1..], i);
    }
  }

  /** Each row is balanced as if it were the only one. */
  lemma {:induction false} EvenRowsAt(w: Load, cap: Load, rows: seq<Row>, row: Row)
    requires Disjoint(rows) && row in rows
    ensures At(EvenRows(w, cap, rows), row.0) == At(EvenRow(w, cap, row), row.0)
    ensures At(EvenRows(w, cap, rows), row.1) == At(EvenRow(w, cap, row), row.1)
    decreases rows
  {
    var v := EvenRow(w, cap, rows[0]);
    if row == rows[0] {
      assert !InRows(rows[1..], row.0) && !InRows(rows[1..], row.1);
      EvenRowsElsewhere(v, cap, rows[1..], row.0);
      EvenRowsElsewhere(v, cap, rows[1..], row.1);
    } else {
      var k :| 0 <= k < |rows| && rows[k] == row;
      EvenRowElsewhere(w, cap, rows[0], row.0);
      EvenRowElsewhere(w, cap, rows[0], row.1);
      assert row == rows[1..][k - 1];
      EvenRowsAt(v, cap, rows[1..], row);
      EvenRowLocal(v, w, cap, row);
    }
  }

  lemma {:induction false} EvenRowsKeys(w: Load, cap: Load, rows: seq<Row>)
    requires forall r <- rows :: r.0 in w && r.1 in w
    ensures EvenRows(w, cap, rows).Keys == w.Keys
    decreases rows
  {
    if rows != [] {
      assert rows[0] in rows;
      var z := w[rows[0].0 := 0.0][rows[0].1 := 0.0];
      assert z.Keys == w.Keys;
      PourKeys(z, cap, [rows[0].0, rows[0].1], RowTotal(w, rows[0]));
      EvenRowsKeys(EvenRow(w, cap, rows[0]), cap, rows[1..]);
    }
  }

  ghost predicate DifferOnlyAt(w: Load, r: Load, i: int, j: int, all: seq<int>) {
    forall k <- all :: k == i || k == j || At(r, k) == At(w, k)
  }

  /** Two loads that differ at two stations with the same pair total: one is the other after
      a transfer, so the total is the same, and so is the moment when the two arms agree. */
  lemma TwoChanges(w: Load, r: Load, arm: Load, i: int, j: int, all: seq<int>)
    requires NoDup(all) && i in all && j in all && i != j && DifferOnlyAt(w, r, i, j, all)
    requires At(r, i) + At(r, j) == At(w, i) + At(w, j)
    ensures Sum(r, all) == Sum(w, all)
    ensures At(arm, i) == At(arm, j) ==> Moment(r, arm, all) == Moment(w, arm, all)
  {
    var d := At(r, j) - At(w, j);
    var v := Transfer(w, i, j, d);
    forall k <- all ensures At(v, k) == At(r, k) {
    }
    SumFrame(v, r, all);
    MomentFrame(v, r, arm, all);
    TransferSum(w, i, j, d, all);
    if At(arm, i) == At(arm, j) {
      TransferLevel(w, arm, i, j, d, all);
    }
  }

  ghost predicate LevelRow(arm: Load, row: Row) {
    At(arm, row.0) == At(arm, row.1)
  }

  /** A balanced row that fits keeps its pounds and, on one arm, its moment. */
  lemma EvenRowKeeps(w: Load, cap: Load, arm: Load, row: Row, all: seq<int>)
    requires NoDup(all) && row.0 in all && row.1 in all && row.0 != row.1
    requires At(cap, row.0) >= 0.0 && At(cap, row.1) >= 0.0 && RowFits(w, cap, row)
    ensures Sum(EvenRow(w, cap, row), all) == Sum(w, all)
    ensures LevelRow(arm, row) ==> Moment(EvenRow(w, cap, row), arm, all) == Moment(w, arm, all)
  {
    var r := EvenRow(w, cap, row);
    assert DifferOnlyAt(w, r, row.0, row.1, all) by {
      forall k <- all ensures k == row.0 || k == row.1 || At(r, k) == At(w, k) {
        if k != row.0 && k != row.1 {
          EvenRowElsewhere(w, cap, row, k);
        }
      }
    }
    assert At(r, row.0) + At(r, row.1) == At(w, row.0) + At(w, row.1) by {
      EvenRowKeepsMassIff(w, cap, row);
    }
    TwoChanges(w, r, arm, row.0, row.1, all);
  }

  ghost predicate RowsIn(rows: seq<Row>, all: seq<int>) {
    forall r <- rows :: r.0 != r.1 && r.0 in all && r.1 in all
  }

  ghost predicate RowsFit(w: Load, cap: Load, rows: seq<Row>) {
    forall r <- rows :: RowFits(w, cap, r)
  }

  ghost predicate RowsLevel(arm: Load, rows: seq<Row>) {
    forall r <- rows :: LevelRow(arm, r)
  }

  /** Balancing is a conserving projection, part one: total mass never changes, and neither
      does the moment when every row sits on one arm. */
  lemma {:induction false} EvenRowsKeep(w: Load, cap: Load, arm: Load, rows: seq<Row>, all: seq<int>)
    requires NoDup(all) && RowsIn(rows, all) && Disjoint(rows)
    requires CapsNonNegative(cap, rows) && RowsFit(w, cap, rows)
    ensures Sum(EvenRows(w, cap, rows), all) == Sum(w, all)
    ensures RowsLevel(arm, rows) ==> Moment(EvenRows(w, cap, rows), arm, all) == Moment(w, arm, all)
    decreases rows
  {
    if rows != [] {
      assert rows[0] in rows;
      EvenRowKeeps(w, cap, arm, rows[0], all);
      var v := EvenRow(w, cap, rows[0]);
      forall r <- rows[1..] ensures RowFits(v, cap, r) {
        EvenRowElsewhere(w, cap, rows[0], r.0);
        EvenRowElsewhere(w, cap, rows[0], r.1);
        assert r in rows;
      }
      EvenRowsKeep(v, cap, arm, rows[1..], all);
    }
  }

  /** What one balancing leaves a second one cannot change: the row held its whole total, or it is
      full and its capacity does not round down. */
  ghost predicate RowSettles(w: Load, cap: Load, row: Row) {
    var hold := At(cap, row.0) + At(cap, row.1);
    RowTotal(w, row) <= hold || RoundLb(hold) >= hold
  }

  /** Balancing a row twice is balancing it once exactly when it settles. */
  lemma EvenRowTwiceIff(w: Load, cap: Load, row: Row)
    requires row.0 != row.1 && At(cap, row.0) >= 0.0 && At(cap, row.1) >= 0.0
    ensures var r := EvenRow(w, cap, row);
            At(EvenRow(r, cap, row), row.0) == At(r, row.0) && At(EvenRow(r, cap, row), row.1) == At(r, row.1)
            <==> RowSettles(w, cap, row)
  {
    var r := EvenRow(w, cap, row);
    EvenRowShares(w, cap, row);
    EvenRowShares(r, cap, row);
    RoundWhole(Max(0.0, At(w, row.0)) + Max(0.0, At(w, row.1)));
    RoundWhole(At(r, row.0) + At(r, row.1));
    if RowTotal(w, row) <= At(cap, row.0) + At(cap, row.1) {
      SameTotal(r, w, cap, row);
    }
  }

  /** A row's outcome depends only on its rounded total. */
  lemma SameTotal(w: Load, v: Load, cap: Load, row: Row)
    requires RowTotal(w, row) == RowTotal(v, row)
    ensures At(EvenRow(w, cap, row), row.0) == At(EvenRow(v, cap, row), row.0)
    ensures At(EvenRow(w, cap, row), row.1) == At(EvenRow(v, cap, row), row.1)
  {
    var a, b := w[row.0 := 0.0][row.1 := 0.0], v[row.0 := 0.0][row.1 := 0.0];
    PourLocal(a, b, cap, [row.0, row.1], RowTotal(w, row), row.0);
    PourLocal(a, b, cap, [row.0, row.1], RowTotal(w, row), row.1);
  }

  /** Part two: balancing an already balanced load changes nothing. */
  lemma EvenRowsIdempotent(w: Load, cap: Load, rows: seq<Row>)
    requires Disjoint(rows) && CapsNonNegative(cap, rows)
    requires forall r <- rows :: r.0 != r.1 && r.0 in w && r.1 in w
    ensures EvenRows(EvenRows(w, cap, rows), cap, rows) == EvenRows(w, cap, rows)
            <==> forall r <- rows :: RowSettles(w, cap, r)
  {
    var r := EvenRows(w, cap, rows);
    var rr := EvenRows(r, cap, rows);
    EvenRowsKeys(w, cap, rows);
    EvenRowsKeys(r, cap, rows);
    forall row <- rows ensures At(rr, row.0) == At(r, row.0) && At(rr, row.1) == At(r, row.1) <==> RowSettles(w, cap, row) {
      RowTwiceIn(w, cap, rows, row);
    }
    if forall row <- rows :: RowSettles(w, cap, row) {
      forall i | i in r ensures rr[i] == r[i] {
        if InRows(rows, i) {
          var row :| row in rows && (row.0 == i || row.1 == i);
          assert RowSettles(w, cap, row);
        } else {
          EvenRowsElsewhere(r, cap, rows, i);
        }
        assert rr[i] == At(rr, i) && r[i] == At(r, i);
      }
    }
  }

  lemma RowTwiceIn(w: Load, cap: Load, rows: seq<Row>, row: Row)
    requires Disjoint(rows) && CapsNonNegative(cap, rows) && row in rows && row.0 != row.1
    ensures var r := EvenRows(w, cap, rows);
            var rr := EvenRows(r, cap, rows);
            At(rr, row.0) == At(r, row.0) && At(rr, row.1) == At(r, row.1) <==> RowSettles(w, cap, row)
  {
    var r := EvenRows(w, cap, rows);
    EvenRowsAt(w, cap, rows, row);
    EvenRowsAt(r, cap, rows, row);
    EvenRowLocal(r, EvenRow(w, cap, row), cap, row);
    EvenRowTwiceIff(w, cap, row);
  }

  /** Part three: no station ends below zero or above its cap once its row is balanced. */
  lemma EvenRowsBounds(w: Load, cap: Load, rows: seq<Row>, i: int)
    requires Disjoint(rows) && CapsNonNegative(cap, rows)
    requires forall r <- rows :: r.0 != r.1
    requires 0.0 <= At(w, i) <= At(cap, i)
    ensures 0.0 <= At(EvenRows(w, cap, rows), i) <= At(cap, i)
  {
    if InRows(rows, i) {
      var row :| row in rows && (row.0 == i || row.1 == i);
      EvenRowsAt(w, cap, rows, row);
      EvenRowShares(w, cap, row);
    } else {
      EvenRowsElsewhere(w, cap, rows, i);
    }
  }

  // ---- the methods ----

  /** The two collections the pairing closure writes to. */
  class PairBook {
    var pairs: seq<Row>
    var paired: set<int>

    function Value(): Book
      reads this
    {
      Book(pairs, paired)
    }

    constructor ()
      ensures Value() == Book([], {})
    {
      pairs, paired := [], {};
    }

    method Add(i: int, j: int)
      modifies this
      ensures Value() == AddPair(old(Value()), i, j)
    {
      if i == j || i in paired || j in paired {
        return;
      }
      pairs := pairs + [if i <= j then (i, j) else (j, i)];
      paired := paired + {i, j};
    }
  }

  method GroupStations(withArm: seq<Station>) returns (g: Groups)
    requires forall s <- withArm :: s.arm.Some?
    ensures g == GroupByArm(withArm)
  {
    g := Groups([], map[]);
    for k := 0 to |withArm|
      invariant g == GroupByArm(withArm[..k])
    {
      var s := withArm[k];
      assert withArm[..k + 1][..k] == withArm[..k];
      assert withArm[..k + 1][k] == s;
      g := AddToGroup(g, ArmKey(s), s.index);
    }
    assert withArm[..|withArm|] == withArm;
  }

  method PairByArms(book: PairBook, withArm: seq<Station>)
    requires |withArm| >= 2 && forall s <- withArm :: s.arm.Some?
    requires book.Value() == Book([], {})
    modifies book
    ensures var g := GroupByArm(withArm);
            var b := PairGroups(Book([], {}), g, g.order);
            book.Value() == PairNear(b, SortBy(Leftovers(b, withArm), ArmDescending))
  {
    var g := GroupStations(withArm);
    for k := 0 to |g.order|
      invariant PairGroups(book.Value(), g, g.order[k..]) == PairGroups(Book([], {}), g, g.order)
    {
      assert g.order[k..][0] == g.order[k] && g.order[k..][1..] == g.order[k + 1..];
      var members := g.members[g.order[k]];
      if |members| == 2 {
        book.Add(members[0], members[1]);
      }
    }
    assert g.order[|g.order|..] == [];
    ghost var b := book.Value();
    var leftover := SortBy(Leftovers(book.Value(), withArm), ArmDescending);
    var i := 0;
    while i < |leftover| - 1
      invariant 0 <= i <= |leftover|
      invariant PairNear(book.Value(), leftover[i..]) == PairNear(b, leftover)
    {
      var x, y := leftover[i], leftover[i + 1];
      assert leftover[i..][0] == x && leftover[i..][1] == y;
      assert leftover[i..][1..] == leftover[i + 1..] && leftover[i..][2..] == leftover[i + 2..];
      if NearArms(x, y) {
        book.Add(x.index, y.index);
        i := i + 2;
      } else {
        i := i + 1;
      }
    }
  }

  method PairByNames(book: PairBook, ss: seq<Station>)
    modifies book
    ensures var b := old(book.Value());
            book.Value() == PairSides(b, SortBy(OnSide(b, ss, Left), Ascending), SortBy(OnSide(b, ss, Right), Ascending))
  {
    ghost var b := book.Value();
    var lefts := SortBy(OnSide(book.Value(), ss, Left), Ascending);
    var rights := SortBy(OnSide(book.Value(), ss, Right), Ascending);
    var named := if |lefts| <= |rights| then |lefts| else |rights|;
    for i := 0 to named
      invariant PairSides(book.Value(), lefts[i..], rights[i..]) == PairSides(b, lefts, rights)
    {
      assert lefts[i..][0] == lefts[i] && lefts[i..][1..] == lefts[i + 1..];
      assert rights[i..][0] == rights[i] && rights[i..][1..] == rights[i + 1..];
      book.Add(lefts[i], rights[i]);
    }
    assert lefts[named..] == [] || rights[named..] == [];
  }

  method PairByIndex(book: PairBook, ss: seq<Station>)
    modifies book
    ensures var b := old(book.Value());
            book.Value() == PairConsecutive(b, SortBy(Cabin(b, ss), IndexAscending))
  {
    ghost var b := book.Value();
    var cabin := SortBy(Cabin(book.Value(), ss), IndexAscending);
    var i := 0;
    while i < |cabin| - 1
      invariant 0 <= i <= |cabin|
      invariant PairConsecutive(book.Value(), cabin[i..]) == PairConsecutive(b, cabin)
    {
      var x, y := cabin[i], cabin[i + 1];
      assert cabin[i..][0] == x && cabin[i..][1] == y;
      assert cabin[i..][1..] == cabin[i + 1..] && cabin[i..][2..] == cabin[i + 2..];
      if y.index == x.index + 1 {
        book.Add(x.index, y.index);
        i := i + 2;
      } else {
        i := i + 1;
      }
    }
  }

  /** Group the movable stations into rows: same arm, near arms, names, then indexes. */
  method FindLateralStationGroups(p: Profile, movable: seq<int>) returns (pairs: seq<Row>)
    ensures pairs == Rows(p, movable)
  {
    var ss := Resolve(p, movable);
    if |ss| < 2 {
      return [];
    }
    var book := new PairBook();
    var withArm := WithArm(ss);
    if |withArm| >= 2 {
      PairByArms(book, withArm);
    }
    assert book.Value() == AfterArms(ss);
    PairByNames(book, ss);
    assert book.Value() == AfterNames(ss);
    PairByIndex(book, ss);
    pairs := book.pairs;
  }

  /** The layout `equalizeLateralStationPairs` returns. */
  function Balanced(w: Load, p: Profile, ids: seq<int>, softMax: Load): Load {
    EvenRows(w, Caps(p, softMax, ids), Rows(p, ids))
  }

  /** Empty each row and refill it with its total, pound by pound. */
  method EqualizeRows(stations: Load, caps: Load, rows: seq<Row>) returns (next: Load)
    ensures next == EvenRows(stations, caps, rows)
  {
    next := stations;
    assert rows[0..] == rows;
    for k := 0 to |rows|
      invariant EvenRows(next, caps, rows[k..]) == EvenRows(stations, caps, rows)
    {
      var row := rows[k];
      assert rows[k..][0] == row && rows[k..][1..] == rows[k + 1..];
      var total := RoundLb(Max(0.0, At(next, row.0)) + Max(0.0, At(next, row.1)));
      ghost var before := next;
      next := FillByPounds(next[row.0 := 0.0][row.1 := 0.0], caps, [row.0, row.1], total);
      assert next == EvenRow(before, caps, row);
    }
    assert rows[|rows|..] == [];
  }

  /** Equalize weight across each row without changing the row's total. */
  method EqualizeLateralStationPairs(stations: Load, p: Profile, movable: seq<int>, softMax: Load)
    returns (next: Load)
    ensures next == Balanced(stations, p, movable, softMax)
  {
    var rows := FindLateralStationGroups(p, movable);
    next := EqualizeRows(stations, Caps(p, softMax, movable), rows);
  }
}

/** Background removal from the image border: the breadth-first fill of
    `knockout-commodity-bg.py`, against a path-based definition of background. */
module {:induction false} FloodFill {
  datatype Pixel = Pixel(r: int, g: int, b: int, a: int)

  datatype Color = Color(r: int, g: int, b: int)

  /** A column and a row. */
  type Cell = (int, int)

  type Image = map<Cell, Pixel>

  function DistanceSquared(p: Pixel, bg: Color): int {
    (p.r - bg.r) * (p.r - bg.r) + (p.g - bg.g) * (p.g - bg.g) + (p.b - bg.b) * (p.b - bg.b)
  }

  /** The colour distance, the root of the squared distance, exceeds the tolerance. */
  predicate Far(p: Pixel, bg: Color, tol: real) {
    tol < 0.0 || DistanceSquared(p, bg) as real > tol * tol
  }

  predicate Fillable(p: Pixel, bg: Color, tol: real) {
    p.a != 0 && !Far(p, bg, tol)
  }

  predicate OnBorder(c: Cell, w: int, h: int) {
    c.0 == 0 || c.1 == 0 || c.0 == w - 1 || c.1 == h - 1
  }

  predicate Adjacent(c: Cell, d: Cell) {
    || (d.1 == c.1 && (d.0 == c.0 + 1 || d.0 == c.0 - 1))
    || (d.0 == c.0 && (d.1 == c.1 + 1 || d.1 == c.1 - 1))
  }

  function Neighbours(c: Cell): (r: seq<Cell>)
    ensures forall d :: d in r <==> Adjacent(c, d)
  {
    var r := [(c.0 + 1, c.1), (c.0 - 1, c.1), (c.0, c.1 + 1), (c.0, c.1 - 1)];
    assert r[0] in r && r[1] in r && r[2] in r && r[3] in r;
    r
  }

  /** The shape of the search: all cells of the image, and the fillable ones among them. */
  datatype Scene = Scene(w: int, h: int, cells: set<Cell>, open: set<Cell>)

  ghost function SceneOf(img: Image, w: int, h: int, bg: Color, tol: real): Scene {
    Scene(w, h, img.Keys, set c | c in img && Fillable(img[c], bg, tol))
  }

  /** A 4-connected path of fillable pixels that starts on the border. */
  ghost predicate Path(s: Scene, p: seq<Cell>) {
    && |p| > 0 && OnBorder(p[0], s.w, s.h)
    && (forall k | 0 <= k < |p| :: p[k] in s.open)
    && (forall k | 0 < k < |p| :: Adjacent(p[k - 1], p[k]))
  }

  /** The background: joined to the border by such a path. */
  ghost predicate Joined(s: Scene, c: Cell) {
    exists p :: Path(s, p) && p[|p| - 1] == c
  }

  /** The image with exactly the background made transparent and nothing else changed. */
  ghost function Cleared(img: Image, w: int, h: int, bg: Color, tol: real): Image {
    map c | c in img :: if Joined(SceneOf(img, w, h, bg, tol), c) then img[c].(a := 0) else img[c]
  }

  // ---- the terms of the definition ----

  /** Too far means that the Euclidean distance of the colours exceeds the tolerance. */
  lemma FarIsDistance(p: Pixel, bg: Color, tol: real, d: real)
    requires d >= 0.0
    requires d * d == ((p.r - bg.r) * (p.r - bg.r) + (p.g - bg.g) * (p.g - bg.g) + (p.b - bg.b) * (p.b - bg.b)) as real
    ensures Far(p, bg, tol) <==> d > tol
  {
    if tol >= 0.0 {
      SquareOrder(d, tol);
    }
  }

  lemma SquareOrder(a: real, b: real)
    requires a >= 0.0 && b >= 0.0
    ensures a * a > b * b <==> a > b
  {
    Product(a - b, a + b);
    assert (a - b) * (a + b) == a * a - b * b;
  }

  lemma Product(x: real, y: real)
    requires y >= 0.0
    ensures x <= 0.0 ==> x * y <= 0.0
    ensures x > 0.0 && y > 0.0 ==> x * y > 0.0
  {
  }

  /** Neighbours are one step away, up, down, left or right. */
  lemma AdjacentIsOneStep(c: Cell, d: Cell)
    ensures Adjacent(c, d) <==> (if c.0 < d.0 then d.0 - c.0 else c.0 - d.0) + (if c.1 < d.1 then d.1 - c.1 else c.1 - d.1) == 1
  {
  }

  /** The border of an image: the pixels with a neighbour outside it. */
  lemma BorderHasOutside(c: Cell, w: int, h: int)
    requires 0 <= c.0 < w && 0 <= c.1 < h
    ensures OnBorder(c, w, h) <==> exists d :: Adjacent(c, d) && !(0 <= d.0 < w && 0 <= d.1 < h)
  {
    if OnBorder(c, w, h) {
      var d := if c.0 == 0 then (-1, c.1) else if c.1 == 0 then (c.0, -1) else if c.0 == w - 1 then (w, c.1) else (c.0, h);
      assert Adjacent(c, d);
    }
  }

  lemma BorderJoined(s: Scene, c: Cell)
    requires c in s.open && OnBorder(c, s.w, s.h)
    ensures Joined(s, c)
  {
    assert Path(s, [c]);
  }

  lemma NeighbourJoined(s: Scene, c: Cell, d: Cell)
    requires Joined(s, c) && d in s.open && Adjacent(c, d)
    ensures Joined(s, d)
  {
    var p :| Path(s, p) && p[|p| - 1] == c;
    assert Path(s, p + [d]);
  }

  lemma JoinedOpen(s: Scene, c: Cell)
    requires Joined(s, c)
    ensures c in s.open
  {
    var p :| Path(s, p) && p[|p| - 1] == c;
    assert p[|p| - 1] in s.open;
  }

  /** Transparent afterwards: the pixels that already were, and the background. All other pixels
      and every colour value stay as they were. */
  lemma ClearedAlpha(img: Image, w: int, h: int, bg: Color, tol: real, c: Cell)
    requires c in img
    ensures var r := Cleared(img, w, h, bg, tol);
            var joined := Joined(SceneOf(img, w, h, bg, tol), c);
            && (r[c].a == 0 <==> img[c].a == 0 || joined)
            && r[c].(a := img[c].a) == img[c]
            && (!joined ==> r[c] == img[c])
            && (joined ==> Fillable(img[c], bg, tol))
  {
    var s := SceneOf(img, w, h, bg, tol);
    if Joined(s, c) {
      JoinedOpen(s, c);
    }
  }

  /** A second fill against the same background colour finds nothing left to clear. */
  lemma ClearedTwice(img: Image, w: int, h: int, bg: Color, tol: real)
    ensures var r := Cleared(img, w, h, bg, tol);
            Cleared(r, w, h, bg, tol) == r
  {
    var r := Cleared(img, w, h, bg, tol);
    var s, t := SceneOf(img, w, h, bg, tol), SceneOf(r, w, h, bg, tol);
    forall c | c in r ensures !Joined(t, c) {
      if Joined(t, c) {
        var p :| Path(t, p) && p[|p| - 1] == c;
        assert p[0] in t.open;
        ClearedAlpha(img, w, h, bg, tol, p[0]);
        if !Joined(s, p[0]) {
          assert p[0] in s.open;
          BorderJoined(s, p[0]);
        }
      }
    }
  }

  // ---- the search ----

  /** Everything on the border, and every neighbour of a fillable member, is settled. */
  ghost predicate Covered(s: Scene, done: set<Cell>, q: seq<Cell>) {
    && (forall c <- s.cells :: OnBorder(c, s.w, s.h) ==> c in done || c in q)
    && (forall c, d :: c in done && c in s.open && Adjacent(c, d) && d in s.cells ==> d in done || d in q)
  }

  /** Invariant of the search: whatever was cleared or waits to be is background, and all that
      must still be looked at is in the queue. */
  ghost predicate Searching(s: Scene, done: set<Cell>, q: seq<Cell>) {
    && done <= s.cells && s.open <= s.cells
    && (forall c <- done :: c in s.open ==> Joined(s, c))
    && (forall c <- q :: c in s.open ==> Joined(s, c))
    && Covered(s, done, q)
  }

  lemma SearchStarts(s: Scene, q: seq<Cell>)
    requires s.open <= s.cells
    requires forall c <- s.cells :: OnBorder(c, s.w, s.h) ==> c in q
    requires forall c <- q :: OnBorder(c, s.w, s.h)
    ensures Searching(s, {}, q)
  {
    forall c <- q | c in s.open ensures Joined(s, c) {
      BorderJoined(s, c);
    }
  }

  /** A cell outside the image, or one seen before, can be dropped. */
  lemma SearchDrops(s: Scene, done: set<Cell>, q: seq<Cell>)
    requires Searching(s, done, q) && q != [] && (q[0] !in s.cells || q[0] in done)
    ensures Searching(s, done, q[1..])
  {
    assert q == [q[0]] + q[1..];
  }

  /** A pixel that is not fillable stops the search there. */
  lemma SearchStops(s: Scene, done: set<Cell>, q: seq<Cell>)
    requires Searching(s, done, q) && q != [] && q[0] in s.cells && q[0] !in s.open
    ensures Searching(s, done + {q[0]}, q[1..])
  {
    assert q == [q[0]] + q[1..];
  }

  /** A fillable pixel passes the search on to its four neighbours. */
  lemma SearchSpreads(s: Scene, done: set<Cell>, q: seq<Cell>, next: seq<Cell>)
    requires Searching(s, done, q) && q != [] && q[0] in s.open
    requires forall d :: d in next <==> Adjacent(q[0], d)
    ensures Searching(s, done + {q[0]}, q[1..] + next)
  {
    assert q == [q[0]] + q[1..];
    assert q[0] in q;
    forall d <- next | d in s.open ensures Joined(s, d) {
      NeighbourJoined(s, q[0], d);
    }
  }

  lemma {:induction false} PathReached(s: Scene, done: set<Cell>, p: seq<Cell>, k: nat)
    requires s.open <= s.cells && Covered(s, done, []) && Path(s, p) && k < |p|
    ensures p[k] in done
  {
    assert p[k] in s.open;
    if k > 0 {
      PathReached(s, done, p, k - 1);
      assert p[k - 1] in s.open;
    }
  }

  /** When the queue is empty, the fillable cells reached are exactly the background. */
  lemma SearchEnds(s: Scene, done: set<Cell>, c: Cell)
    requires Searching(s, done, [])
    ensures c in done && c in s.open <==> Joined(s, c)
  {
    if Joined(s, c) {
      var p :| Path(s, p) && p[|p| - 1] == c;
      PathReached(s, done, p, |p| - 1);
      JoinedOpen(s, c);
    }
  }

  // ---- the pixel buffer ----

  ghost function Cells(w: int, h: int): (r: set<Cell>)
    ensures forall c: Cell :: c in r <==> 0 <= c.0 < w && 0 <= c.1 < h
  {
    set x, y | 0 <= x < w && 0 <= y < h :: (x, y)
  }

  ghost function ImageOf(px: array2<Pixel>): Image
    reads px
  {
    map c | c in Cells(px.Length0, px.Length1) :: px[c.0, c.1]
  }

  /** The pixels after the fillable cells in `done` have been cleared. */
  ghost predicate Painted(px: array2<Pixel>, img: Image, open: set<Cell>, done: set<Cell>)
    reads px
  {
    forall c <- Cells(px.Length0, px.Length1) ::
      c in img && px[c.0, c.1] == if c in done && c in open then img[c].(a := 0) else img[c]
  }

  /** The cells the loop starts from: top and bottom rows, then left and right columns. */
  method BorderQueue(w: nat, h: nat) returns (q: seq<Cell>)
    ensures forall x, y :: 0 <= x < w && 0 <= y < h && OnBorder((x, y), w, h) ==> (x, y) in q
    ensures forall c <- q :: OnBorder(c, w, h)
  {
    q := [];
    for x := 0 to w
      invariant forall c: Cell :: 0 <= c.0 < x && (c.1 == 0 || c.1 == h - 1) ==> c in q
      invariant forall c <- q :: OnBorder(c, w, h)
    {
      q := q + [(x, 0), (x, h - 1)];
      assert q[|q| - 2] == (x, 0) && q[|q| - 1] == (x, h - 1);
    }
    for y := 0 to h
      invariant forall c: Cell :: 0 <= c.0 < w && (c.1 == 0 || c.1 == h - 1) ==> c in q
      invariant forall c: Cell :: 0 <= c.1 < y && (c.0 == 0 || c.0 == w - 1) ==> c in q
      invariant forall c <- q :: OnBorder(c, w, h)
    {
      q := q + [(0, y), (w - 1, y)];
      assert q[|q| - 2] == (0, y) && q[|q| - 1] == (w - 1, y);
    }
  }

  /** The same test on the buffer as on the scene. */
  lemma OpenNow(px: array2<Pixel>, img: Image, s: Scene, done: set<Cell>, bg: Color, tol: real, c: Cell)
    requires 0 <= c.0 < px.Length0 && 0 <= c.1 < px.Length1 && c !in done
    requires Painted(px, img, s.open, done) && s == SceneOf(img, px.Length0, px.Length1, bg, tol)
    ensures c in s.open <==> Fillable(px[c.0, c.1], bg, tol)
  {
    assert c in Cells(px.Length0, px.Length1);
  }

  ghost predicate Marked(visited: array2<bool>, done: set<Cell>)
    reads visited
  {
    forall x, y :: 0 <= y < visited.Length0 && 0 <= x < visited.Length1 ==> (visited[y, x] <==> (x, y) in done)
  }

  /** Visit one cell of the image: mark it and, if it is fillable, clear it. */
  method Visit(px: array2<Pixel>, visited: array2<bool>, x: int, y: int, bg: Color, tol: real,
               ghost img: Image, ghost s: Scene, ghost done: set<Cell>)
    returns (filled: bool)
    requires visited.Length0 == px.Length1 && visited.Length1 == px.Length0
    requires 0 <= x < px.Length0 && 0 <= y < px.Length1 && !visited[y, x]
    requires s == SceneOf(img, px.Length0, px.Length1, bg, tol)
    requires Painted(px, img, s.open, done) && Marked(visited, done)
    modifies px, visited
    ensures filled <==> (x, y) in s.open
    ensures Painted(px, img, s.open, done + {(x, y)}) && Marked(visited, done + {(x, y)})
  {
    OpenNow(px, img, s, done, bg, tol, (x, y));
    visited[y, x] := true;
    var p := px[x, y];
    if p.a == 0 || Far(p, bg, tol) {
      return false;
    }
    px[x, y] := p.(a := 0);
    return true;
  }

  /** Invariant of the loop, over the buffer, the marks and the queue. */
  ghost predicate Filling(px: array2<Pixel>, visited: array2<bool>, img: Image, s: Scene, done: set<Cell>, q: seq<Cell>)
    reads px, visited
  {
    && visited.Length0 == px.Length1 && visited.Length1 == px.Length0
    && s.cells == Cells(px.Length0, px.Length1)
    && Painted(px, img, s.open, done) && Marked(visited, done) && Searching(s, done, q)
  }

  /** One turn of the loop. */
  method Turn(px: array2<Pixel>, visited: array2<bool>, q: seq<Cell>, bg: Color, tol: real,
              ghost img: Image, ghost s: Scene, ghost done: set<Cell>)
    returns (next: seq<Cell>, ghost done': set<Cell>)
    requires q != [] && Filling(px, visited, img, s, done, q)
    requires s == SceneOf(img, px.Length0, px.Length1, bg, tol)
    modifies px, visited
    ensures Filling(px, visited, img, s, done', next)
    ensures (done' == done && |next| < |q|) || (done' == done + {q[0]} && q[0] !in done)
  {
    var (x, y) := q[0];
    assert q[0] == (x, y);
    if x < 0 || y < 0 || x >= px.Length0 || y >= px.Length1 || visited[y, x] {
      SearchDrops(s, done, q);
      return q[1..], done;
    }
    var filled := Visit(px, visited, x, y, bg, tol, img, s, done);
    done' := done + {q[0]};
    if filled {
      next := q[1..] + Neighbours((x, y));
      SearchSpreads(s, done, q, Neighbours((x, y)));
    } else {
      next := q[1..];
      SearchStops(s, done, q);
    }
  }

  /** Clear, in place, the background that is connected to the image border. */
  method ClearBackground(px: array2<Pixel>, bg: Color, tol: real)
    modifies px
    ensures ImageOf(px) == Cleared(old(ImageOf(px)), px.Length0, px.Length1, bg, tol)
  {
    ghost var img := ImageOf(px);
    ghost var s := SceneOf(img, px.Length0, px.Length1, bg, tol);
    var visited := new bool[px.Length1, px.Length0]((_, _) => false);
    var q := BorderQueue(px.Length0, px.Length1);
    ghost var done: set<Cell> := {};
    SearchStarts(s, q);
    while q != []
      invariant Filling(px, visited, img, s, done, q)
      decreases s.cells - done, |q|
    {
      q, done := Turn(px, visited, q, bg, tol, img, s, done);
    }
    PaintedIsCleared(px, img, s, done, bg, tol);
  }

  lemma PaintedIsCleared(px: array2<Pixel>, img: Image, s: Scene, done: set<Cell>, bg: Color, tol: real)
    requires s == SceneOf(img, px.Length0, px.Length1, bg, tol)
    requires img.Keys == Cells(px.Length0, px.Length1)
    requires Painted(px, img, s.open, done) && Searching(s, done, [])
    ensures ImageOf(px) == Cleared(img, px.Length0, px.Length1, bg, tol)
  {
    var r := ImageOf(px);
    forall c | c in img ensures r[c] == if Joined(s, c) then img[c].(a := 0) else img[c] {
      SearchEnds(s, done, c);
    }
  }
}

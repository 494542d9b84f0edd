/**
 * The level's obstacle field, built once at startup from a table of rows.
 * Each row `(count, xpos)` places `count` mirrored pairs of cones, one at
 * `xpos + LeftSide` and one at `xpos - LeftSide`, both at the running height
 * `ypos`, which starts at `StartY` and grows by `YStep` after every pair.
 * All coordinates of the demo's table are multiples of 50, so they are
 * integers here.
 */
module Layout {

  /** One row of the level table: how many mirrored pairs to place, and the row's x offset. */
  datatype Turn = Turn(count: nat, xpos: int)

  /** A logical obstacle position as the layout produces it. */
  datatype Point = Point(x: int, y: int)

  const StartY: int := -100
  const YStep: int := 100
  const LeftSide: int := -400

  /** The table of the first (and only) level. */
  function Lv1Turns(): (t: seq<Turn>)
    ensures |t| == 3
    ensures forall i :: 0 <= i < |t| ==> 0 <= t[i].xpos <= 200 && t[i].count > 0
  {
    [Turn(10, 0), Turn(20, 50), Turn(30, 100)]
  }

  /** The number of pairs a table asks for: the sum of its counts. */
  function TotalPairs(turns: seq<Turn>): nat {
    if turns == [] then 0 else TotalPairs(turns[..|turns| - 1]) + turns[|turns| - 1].count
  }

  /** `n` copies of `x`. */
  function Repeat(x: int, n: nat): (r: seq<int>)
    ensures |r| == n
    ensures forall i :: 0 <= i < n ==> r[i] == x
  {
    if n == 0 then [] else Repeat(x, n - 1) + [x]
  }

  /** The x offset of every pair, in the order the pairs are placed. */
  function PairXs(turns: seq<Turn>): (xs: seq<int>)
    ensures |xs| == TotalPairs(turns)
  {
    if turns == [] then []
    else PairXs(turns[..|turns| - 1]) + Repeat(turns[|turns| - 1].xpos, turns[|turns| - 1].count)
  }

  /** Every pair offset is the offset of some row of the table. */
  lemma {:induction false} PairXsFromTable(turns: seq<Turn>, k: nat)
    requires k < |PairXs(turns)|
    ensures exists i :: 0 <= i < |turns| && PairXs(turns)[k] == turns[i].xpos
  {
    var init := turns[..|turns| - 1];
    if k < |PairXs(init)| {
      PairXsFromTable(init, k);
      var i :| 0 <= i < |init| && PairXs(init)[k] == init[i].xpos;
      assert turns[i] == init[i];
    } else {
      assert PairXs(turns)[k] == turns[|turns| - 1].xpos;
    }
  }

  /** The running height after `k` pairs: `StartY`, raised by `YStep` per pair. */
  function Height(k: nat): int {
    if k == 0 then StartY else Height(k - 1) + YStep
  }

  lemma {:induction false} HeightIs(k: nat)
    ensures Height(k) == -100 + 100 * k
  {
    if k > 0 {
      HeightIs(k - 1);
    }
  }

  /** The two cones of one pair: mirrored about `xpos`, at the same height. */
  function MirroredPair(xpos: int, y: int): (ps: seq<Point>)
    ensures |ps| == 2 && ps[0].y == ps[1].y == y
    ensures ps[0].x + ps[1].x == 2 * xpos && ps[1].x - ps[0].x == 800
  {
    [Point(xpos + LeftSide, y), Point(xpos - LeftSide, y)]
  }

  /** The cones for a list of pair offsets; pair `k` sits at height `Height(k)`. */
  function Pairs(xs: seq<int>): (ps: seq<Point>)
    ensures |ps| == 2 * |xs|
  {
    if xs == [] then []
    else Pairs(xs[..|xs| - 1]) + MirroredPair(xs[|xs| - 1], Height(|xs| - 1))
  }

  /** Every obstacle position a table produces, in spawn order. */
  function LevelLayout(turns: seq<Turn>): (ps: seq<Point>)
    ensures |ps| == 2 * TotalPairs(turns)
  {
    Pairs(PairXs(turns))
  }

  /** Appending one offset appends its mirrored pair at the next height. */
  lemma PairsSnoc(xs: seq<int>, x: int)
    ensures Pairs(xs + [x]) == Pairs(xs) + MirroredPair(x, Height(|xs|))
  {
    assert (xs + [x])[..|xs|] == xs;
  }

  /** One more pair of a row: its mirrored cones are appended and the height rises by one step. */
  lemma NextPair(done: seq<int>, xpos: int, n: nat)
    ensures Pairs(done + Repeat(xpos, n + 1)) == Pairs(done + Repeat(xpos, n)) + MirroredPair(xpos, Height(|done| + n))
    ensures Height(|done| + n + 1) == Height(|done| + n) + YStep
  {
    assert done + Repeat(xpos, n + 1) == (done + Repeat(xpos, n)) + [xpos];
    PairsSnoc(done + Repeat(xpos, n), xpos);
  }

  /** One more row of the table appends its offset `count` times. */
  lemma NextRow(turns: seq<Turn>, r: nat)
    requires r < |turns|
    ensures PairXs(turns[..r + 1]) == PairXs(turns[..r]) + Repeat(turns[r].xpos, turns[r].count)
  {
    assert turns[..r + 1][..r] == turns[..r];
  }

  /** Pair `k` of `Pairs(xs)` occupies indices `2k` and `2k+1`. */
  lemma {:induction false} PairAt(xs: seq<int>, k: nat)
    requires k < |xs|
    ensures |Pairs(xs)| == 2 * |xs|
    ensures Pairs(xs)[2 * k] == Point(xs[k] + LeftSide, Height(k))
    ensures Pairs(xs)[2 * k + 1] == Point(xs[k] - LeftSide, Height(k))
  {
    var init := xs[..|xs| - 1];
    if k < |init| {
      PairAt(init, k);
      assert init[k] == xs[k];
    }
  }

  /**
   * Pair `k` (counted from 0 across all rows) is a mirrored pair at height
   * `-100 + 100k`: its x values are the row offset shifted by -400 and +400,
   * so they sum to twice the offset, and the offset is that of some row.
   */
  lemma LayoutPair(turns: seq<Turn>, k: nat)
    requires k < TotalPairs(turns)
    ensures |LevelLayout(turns)| == 2 * TotalPairs(turns)
    ensures LevelLayout(turns)[2 * k].y == LevelLayout(turns)[2 * k + 1].y == -100 + 100 * k
    ensures LevelLayout(turns)[2 * k].x == PairXs(turns)[k] - 400
    ensures LevelLayout(turns)[2 * k + 1].x == PairXs(turns)[k] + 400
    ensures LevelLayout(turns)[2 * k].x + LevelLayout(turns)[2 * k + 1].x == 2 * PairXs(turns)[k]
    ensures exists i :: 0 <= i < |turns| && PairXs(turns)[k] == turns[i].xpos
  {
    PairAt(PairXs(turns), k);
    HeightIs(k);
    PairXsFromTable(turns, k);
  }

  /** Heights strictly increase from pair to pair and each step is exactly 100. */
  lemma LayoutAscends(turns: seq<Turn>, j: nat, k: nat)
    requires j < k < TotalPairs(turns)
    ensures |LevelLayout(turns)| == 2 * TotalPairs(turns)
    ensures LevelLayout(turns)[2 * j].y < LevelLayout(turns)[2 * k].y
    ensures LevelLayout(turns)[2 * k].y - LevelLayout(turns)[2 * j].y == 100 * (k - j)
  {
    LayoutPair(turns, j);
    LayoutPair(turns, k);
  }

  /** The level table asks for 10 + 20 + 30 = 60 pairs, so 120 obstacles, all with offsets in [0, 200]. */
  lemma Lv1Shape()
    ensures TotalPairs(Lv1Turns()) == 60
    ensures |LevelLayout(Lv1Turns())| == 120
    ensures forall i :: 0 <= i < |Lv1Turns()| ==> 0 <= Lv1Turns()[i].xpos <= 200
  {
    var t := Lv1Turns();
    assert t[..2][..1] == t[..1];
    assert t[..1][..0] == [];
    assert TotalPairs(t[..1]) == 10;
    assert TotalPairs(t[..2]) == 30;
  }

  /**
   * `setup_obstacles`: walks the level table row by row, placing two cones per
   * pair at the running height and raising the height by `YStep` after each
   * pair. The table (`Lv1Turns()` in the demo) is a parameter; the inner loop
   * over one row is `SpawnRow`.
   */
  method SetupObstacles(turns: seq<Turn>) returns (spawned: seq<Point>)
    ensures spawned == LevelLayout(turns)
  {
    var ypos := StartY;
    spawned := [];
    for r := 0 to |turns|
      invariant spawned == Pairs(PairXs(turns[..r]))
      invariant ypos == Height(|PairXs(turns[..r])|)
    {
      spawned, ypos := SpawnRow(spawned, ypos, turns[r].count, turns[r].xpos, PairXs(turns[..r]));
      NextRow(turns, r);
    }
    assert turns[..|turns|] == turns;
  }

  /**
   * The inner loop of `setup_obstacles` for one row `(num, xpos)`: `num` times,
   * append the mirrored pair at `ypos` and raise `ypos` by one step. `done` is
   * the list of pair offsets placed before this row.
   */
  method SpawnRow(placed: seq<Point>, y: int, num: nat, xpos: int, ghost done: seq<int>)
    returns (spawned: seq<Point>, ypos: int)
    requires placed == Pairs(done) && y == Height(|done|)
    ensures spawned == Pairs(done + Repeat(xpos, num))
    ensures ypos == Height(|done| + num)
  {
    spawned, ypos := placed, y;
    assert done + Repeat(xpos, 0) == done;
    for n := 0 to num
      invariant spawned == Pairs(done + Repeat(xpos, n))
      invariant ypos == Height(|done| + n)
    {
      NextPair(done, xpos, n);
      spawned := spawned + [Point(xpos + LeftSide, ypos)];
      spawned := spawned + [Point(xpos - LeftSide, ypos)];
      ypos := ypos + YStep;
    }
  }
}

/** The maze: a row-major grid of blocked/open cells carved by random
    rectangular loops, and the wall boxes built from it. */
module Mazes {
  import opened Outcomes
  import opened Bounds
  import opened Aabbs
  import opened RunMerge

  /** `unsigned short`. */
  type U16 = n: int | 0 <= n < 0x1_0000

  /** Conversion to `unsigned short`: reduction modulo 2^16. Dafny's `%` is
      Euclidean, so -1 becomes 65535, as in C++. */
  function ToU16(n: int): U16 {
    n % 0x1_0000
  }

  /** `a % m` and `n / 2` on naturals, written as repeated subtraction so
      that proofs about the grid work from their bounds; `RemainderIsMod`
      and `HalfIsDiv` show that they agree with `%` and `/`. */
  function Remainder(a: nat, m: nat): (r: nat)
    requires m > 0
    ensures r < m
    decreases a
  {
    if a < m then a else Remainder(a - m, m)
  }

  lemma {:induction false} RemainderIsMod(a: nat, m: nat)
    requires m > 0
    ensures Remainder(a, m) == a % m
    decreases a
  {
    if a < m {
      DivModUnique(a, m, 0, a);
    } else {
      RemainderIsMod(a - m, m);
      DivModUnique(a, m, (a - m) / m + 1, (a - m) % m);
    }
  }

  function Half(n: nat): (r: nat)
    ensures 2 * r <= n < 2 * r + 2
  {
    if n < 2 then 0 else Half(n - 2) + 1
  }

  lemma HalfIsDiv(n: nat)
    ensures Half(n) == n / 2
  {
  }

  /** The rectangle of one loop, corners (xa, ya) and (xb, yb). */
  datatype Rect = Rect(xa: int, xb: int, ya: int, yb: int)

  /** The four `rand()` results one loop consumes, in call order. */
  datatype Draw = Draw(r0: nat, r1: nat, r2: nat, r3: nat)

  /** The coordinates `addRandomLoop` derives from four `rand()` results:
      each is truncated to 16 bits, reduced modulo the side and halved; the
      far corners add the near ones. Every cell of the rectangle is in the grid. */
  function LoopRect(width: U16, height: U16, d: Draw): (r: Rect)
    requires width > 0 && height > 0
    ensures 0 <= r.xa <= r.xb < width && 0 <= r.ya <= r.yb < height
    ensures 2 * r.xa < width && 2 * r.ya < height
  {
    var xa := Half(Remainder(ToU16(d.r0), width));
    var xb := Half(Remainder(ToU16(d.r1), width)) + xa;
    var ya := Half(Remainder(ToU16(d.r2), height));
    var yb := Half(Remainder(ToU16(d.r3), height)) + ya;
    Rect(xa, xb, ya, yb)
  }

  /** Cell (x, y) lies on the border of the rectangle. */
  predicate OnPerimeter(r: Rect, x: int, y: int) {
    (r.ya <= y <= r.yb && (x == r.xa || x == r.xb)) || (r.xa <= x <= r.xb && (y == r.ya || y == r.yb))
  }

  /** The part of the border marked once the top and bottom rows are done
      for columns below xEnd and the sides for rows below yEnd. */
  predicate Marked(r: Rect, xEnd: int, yEnd: int, x: int, y: int) {
    (r.xa <= x < xEnd && (y == r.ya || y == r.yb)) || (r.ya <= y < yEnd && (x == r.xa || x == r.xb))
  }

  /** The grid after `.at(i) = true`, for an index in range. */
  function Block(cells: seq<bool>, i: int): (c: seq<bool>)
    ensures |c| == |cells|
  {
    if 0 <= i < |cells| then cells[i := true] else cells
  }

  /** The writes of the first loop of `addRandomLoop` for columns xa..x-1:
      each column blocks its cell in row ya, then in row yb. Which cells
      these are is stated by `MarkRowsAt`. */
  function MarkRows(cells: seq<bool>, width: int, r: Rect, x: int): (c: seq<bool>)
    ensures |c| == |cells|
    decreases x - r.xa
  {
    if x <= r.xa then cells
    else Block(Block(MarkRows(cells, width, r, x - 1), r.ya * width + (x - 1)), r.yb * width + (x - 1))
  }

  /** The writes of the second loop for rows ya..y-1: column xa, then xb.
      Which cells these are is stated by `MarkSidesAt`. */
  function MarkSides(cells: seq<bool>, width: int, r: Rect, y: int): (c: seq<bool>)
    ensures |c| == |cells|
    decreases y - r.ya
  {
    if y <= r.ya then cells
    else Block(Block(MarkSides(cells, width, r, y - 1), (y - 1) * width + r.xa), (y - 1) * width + r.xb)
  }

  /** All the writes of one loop: the grid with the border of r blocked
      (`CarveIsPerimeter`). */
  function Carve(cells: seq<bool>, width: int, r: Rect): (c: seq<bool>)
    ensures |c| == |cells|
  {
    MarkSides(MarkRows(cells, width, r, r.xb + 1), width, r, r.yb + 1)
  }

  /** The number of loops `generate` adds. */
  function Iterations(width: U16, height: U16): int {
    (width + height) / 6
  }

  /** The grid after the first n loops, loop k using draws[k]; each loop
      blocks its rectangle's border (`CarveIsPerimeter`) and none opens a
      cell (`CarvedGrows`). */
  function Carved(cells: seq<bool>, width: U16, height: U16, draws: seq<Draw>, n: nat): (c: seq<bool>)
    requires n <= |draws| && (n == 0 || (width > 0 && height > 0))
    ensures |c| == |cells|
  {
    if n == 0 then cells
    else
      CarveThrough(Carved(cells, width, height, draws, n - 1), width, LoopRect(width, height, draws[n - 1]), 2)
  }

  /** `Carve`, reached through `depth` empty steps (`CarveThroughIsCarve`).
      `Carved` goes through two of them so that a proof about the loop count
      does not unfold the writes of each loop unless it asks for them. */
  function CarveThrough(cells: seq<bool>, width: int, r: Rect, depth: nat): (c: seq<bool>)
    ensures |c| == |cells|
  {
    if depth == 0 then Carve(cells, width, r) else CarveThrough(cells, width, r, depth - 1)
  }

  lemma CarveThroughIsCarve(cells: seq<bool>, width: int, r: Rect, depth: nat)
    ensures CarveThrough(cells, width, r, depth) == Carve(cells, width, r)
  {
  }

  /** No cell goes from blocked back to open. */
  predicate Grows(before: seq<bool>, after: seq<bool>) {
    |before| == |after| && forall i :: 0 <= i < |before| && before[i] ==> after[i]
  }

  lemma GrowsTransitive(a: seq<bool>, b: seq<bool>, c: seq<bool>)
    requires Grows(a, b) && Grows(b, c)
    ensures Grows(a, c)
  {
  }

  lemma GrowsEquals(a: seq<bool>, b: seq<bool>)
    requires a == b
    ensures Grows(a, b)
  {
  }

  lemma BlockGrows(cells: seq<bool>, i: int)
    ensures Grows(cells, Block(cells, i))
  {
  }

  /** Later columns only add blocked cells. */
  lemma {:induction false} MarkRowsGrows(cells: seq<bool>, width: int, r: Rect, x0: int, x1: int)
    requires x0 <= x1
    ensures Grows(MarkRows(cells, width, r, x0), MarkRows(cells, width, r, x1))
    decreases x1 - x0
  {
    if x0 < x1 {
      MarkRowsGrows(cells, width, r, x0, x1 - 1);
      if x1 > r.xa {
        var m := MarkRows(cells, width, r, x1 - 1);
        BlockGrows(m, r.ya * width + (x1 - 1));
        BlockGrows(Block(m, r.ya * width + (x1 - 1)), r.yb * width + (x1 - 1));
      }
    }
  }

  lemma {:induction false} MarkSidesGrows(cells: seq<bool>, width: int, r: Rect, y: int)
    ensures Grows(cells, MarkSides(cells, width, r, y))
    decreases y - r.ya
  {
    if y > r.ya {
      MarkSidesGrows(cells, width, r, y - 1);
      var m := MarkSides(cells, width, r, y - 1);
      BlockGrows(m, (y - 1) * width + r.xa);
      BlockGrows(Block(m, (y - 1) * width + r.xa), (y - 1) * width + r.xb);
    }
  }

  /** A loop never opens a cell, and what the first loop of `addRandomLoop`
      has written by column x is part of the whole loop's writes. */
  lemma CarveGrows(cells: seq<bool>, width: int, r: Rect, x: int)
    requires r.xa <= r.xb && x <= r.xb + 1
    ensures Grows(cells, Carve(cells, width, r))
    ensures Grows(MarkRows(cells, width, r, x), Carve(cells, width, r))
  {
    var rows := MarkRows(cells, width, r, r.xb + 1);
    MarkRowsGrows(cells, width, r, r.xa, r.xb + 1);
    MarkRowsGrows(cells, width, r, x, r.xb + 1);
    MarkSidesGrows(rows, width, r, r.yb + 1);
    GrowsTransitive(cells, rows, Carve(cells, width, r));
    GrowsTransitive(MarkRows(cells, width, r, x), rows, Carve(cells, width, r));
  }

  /** Where the first loop can stop: after the writes of columns xa..x-1,
      possibly with the row-ya write of column x, the cells lie between the
      old grid and the whole loop's writes. */
  lemma RowsStopBetween(cells: seq<bool>, width: int, r: Rect, x: int, extra: bool)
    requires r.xa <= x <= r.xb
    ensures var done := MarkRows(cells, width, r, x);
      var stopped := if extra then Block(done, r.ya * width + x) else done;
      Grows(cells, stopped) && Grows(stopped, Carve(cells, width, r))
  {
    var done := MarkRows(cells, width, r, x);
    MarkRowsGrows(cells, width, r, r.xa, x);
    if extra {
      var stopped := Block(done, r.ya * width + x);
      BlockGrows(done, r.ya * width + x);
      GrowsTransitive(cells, done, stopped);
      CarveGrows(cells, width, r, x + 1);
      BlockGrows(stopped, r.yb * width + x);
      GrowsTransitive(stopped, MarkRows(cells, width, r, x + 1), Carve(cells, width, r));
    } else {
      CarveGrows(cells, width, r, x);
    }
  }

  /** Carving loops never opens a cell. */
  lemma {:induction false} CarvedGrows(cells: seq<bool>, width: U16, height: U16, draws: seq<Draw>, n: nat)
    requires n <= |draws| && (n == 0 || (width > 0 && height > 0))
    ensures Grows(cells, Carved(cells, width, height, draws, n))
  {
    if n > 0 {
      var before := Carved(cells, width, height, draws, n - 1);
      CarvedGrows(cells, width, height, draws, n - 1);
      CarveGrows(before, width, LoopRect(width, height, draws[n - 1]), 0);
      CarveThroughIsCarve(before, width, LoopRect(width, height, draws[n - 1]), 2);
      GrowsTransitive(cells, before, Carved(cells, width, height, draws, n));
    }
  }

  lemma MulLeq(a: int, b: int, w: nat)
    requires a <= b
    ensures a * w <= b * w
  {
  }

  /** A cell (x, y) of a width by height grid has a row-major index below width * height. */
  lemma IndexInGrid(width: int, height: int, x: int, y: int)
    requires 0 <= x < width && 0 <= y < height
    ensures 0 <= y * width + x < width * height
  {
    MulLeq(y + 1, height, width);
  }

  /** Euclidean division is unique: a quotient and an in-range remainder
      that rebuild i are i / w and i % w. */
  lemma DivModUnique(i: int, w: int, q: int, r: int)
    requires 0 < w && 0 <= r < w && i == q * w + r
    ensures i / w == q && i % w == r
  {
    var q', r' := i / w, i % w;
    var d := q - q';
    assert d * w == q * w - q' * w;
    if d >= 1 {
      MulLeq(1, d, w);
    } else if d <= -1 {
      MulLeq(d, -1, w);
    }
  }

  /** Row-major indices and coordinates correspond one to one. */
  lemma IndexCoords(width: int, i: nat, x: int, y: int)
    requires 0 <= x < width
    ensures i == y * width + x <==> i % width == x && i / width == y
  {
    if i == y * width + x {
      DivModUnique(i, width, y, x);
    }
  }

  /** Within its rows, an index grows with the row and then with the column. */
  lemma IndexMonotone(width: nat, x0: int, y0: int, x1: int, y1: int)
    requires y0 <= y1 && x0 <= x1
    ensures y0 * width + x0 <= y1 * width + x1
  {
    MulLeq(y0, y1, width);
  }

  /** What the first loop has written by column x: the top and bottom
      rows for columns xa..x-1. */
  lemma {:induction false} MarkRowsAt(cells: seq<bool>, width: int, r: Rect, x: int)
    requires 0 <= r.xa <= x <= r.xb + 1 && r.xa <= r.xb < width && 0 <= r.ya <= r.yb
    requires r.yb * width + r.xb < |cells|
    ensures forall i :: 0 <= i < |cells| ==>
      MarkRows(cells, width, r, x)[i] == (cells[i] || Marked(r, x, r.ya, i % width, i / width))
    decreases x - r.xa
  {
    if x > r.xa {
      MarkRowsAt(cells, width, r, x - 1);
      IndexMonotone(width, x - 1, r.ya, r.xb, r.yb);
      IndexMonotone(width, x - 1, r.yb, r.xb, r.yb);
      forall i | 0 <= i < |cells|
        ensures MarkRows(cells, width, r, x)[i] == (cells[i] || Marked(r, x, r.ya, i % width, i / width))
      {
        IndexCoords(width, i, x - 1, r.ya);
        IndexCoords(width, i, x - 1, r.yb);
      }
    }
  }

  /** What the second loop has added by row y: columns xa and xb for rows ya..y-1. */
  lemma {:induction false} MarkSidesAt(cells: seq<bool>, width: int, r: Rect, y: int)
    requires 0 <= r.xa <= r.xb < width && 0 <= r.ya <= y <= r.yb + 1
    requires r.yb * width + r.xb < |cells|
    ensures forall i :: 0 <= i < |cells| ==>
      MarkSides(cells, width, r, y)[i] == (cells[i] || Marked(r, r.xa, y, i % width, i / width))
    decreases y - r.ya
  {
    if y > r.ya {
      MarkSidesAt(cells, width, r, y - 1);
      IndexMonotone(width, r.xa, y - 1, r.xb, r.yb);
      IndexMonotone(width, r.xb, y - 1, r.xb, r.yb);
      forall i | 0 <= i < |cells|
        ensures MarkSides(cells, width, r, y)[i] == (cells[i] || Marked(r, r.xa, y, i % width, i / width))
      {
        IndexCoords(width, i, r.xa, y - 1);
        IndexCoords(width, i, r.xb, y - 1);
      }
    }
  }

  /** A loop whose rectangle fits in the grid blocks exactly the cells on
      its border and leaves every other cell as it was. */
  lemma CarveIsPerimeter(cells: seq<bool>, width: int, r: Rect)
    requires 0 <= r.xa <= r.xb < width && 0 <= r.ya <= r.yb
    requires r.yb * width + r.xb < |cells|
    ensures forall i :: 0 <= i < |cells| ==>
      Carve(cells, width, r)[i] == (cells[i] || OnPerimeter(r, i % width, i / width))
  {
    var rows := MarkRows(cells, width, r, r.xb + 1);
    MarkRowsAt(cells, width, r, r.xb + 1);
    MarkSidesAt(rows, width, r, r.yb + 1);
  }

  /** The run box of one line: a row run spans x = start..end at z = y, a
      column run z = start..end at x; both are one unit high around y = 0. */
  datatype Line = Row(y: int) | Column(x: int) {
    /** The row or column number. */
    function Coord(): int {
      match this
      case Row(y) => y
      case Column(x) => x
    }
  }

  function RunCorners(line: Line, run: Run): (Vec3, Vec3) {
    match line
    case Row(y) =>
      (Vec3(run.start as real - 0.5, -0.5, y as real - 0.5), Vec3(run.end as real + 0.5, 0.5, y as real + 0.5))
    case Column(x) =>
      (Vec3(x as real - 0.5, -0.5, run.start as real - 0.5), Vec3(x as real + 0.5, 0.5, run.end as real + 0.5))
  }

  /** The box stored for a run, after the `Aabb` constructor's ordering. */
  function RunBox(line: Line, run: Run): BoundingBox {
    var (a, b) := RunCorners(line, run);
    CornerOrder(a, b)
  }

  /** The ordering keeps a run's corners as given except for the one-cell
      run at cell (0, 0), whose two corners tie in squared length. */
  lemma RunBoxCorners(line: Line, run: Run)
    requires 0 <= run.start <= run.end && 0 <= line.Coord()
    ensures var (a, b) := RunCorners(line, run);
      RunBox(line, run) == (if run.end == 0 && line.Coord() == 0 then BoundingBox(b, a) else BoundingBox(a, b))
  {
    var (a, b) := RunCorners(line, run);
    var s, e, c := run.start as real, run.end as real, line.Coord() as real;
    var width, reach := e - s + 1.0, e + s;
    assert LengthSquared(b) - LengthSquared(a) == width * reach + 2.0 * c;
    if run.end == 0 {
      assert reach == 0.0;
    } else {
      RealMulAtLeast(width, reach);
    }
  }

  lemma RealMulAtLeast(a: real, b: real)
    requires 1.0 <= a && 0.0 <= b
    ensures b <= a * b
  {
  }

  /** The wall along the negative-x edge of the grid. The `Aabb`
      constructor keeps its corners in the order given unless the maze has
      fewer than two rows, where the far corner is not the longer one. */
  function OuterWall(height: U16): (r: BoundingBox)
    ensures var a, b := Vec3(-1.5, -0.5, -0.5), Vec3(-0.5, 0.5, height as real + 0.5);
      r == if height <= 1 then BoundingBox(b, a) else BoundingBox(a, b)
  {
    var h := height as real + 0.5;
    if height >= 2 then
      RealMulAtLeast(h / 2.5, h);
      CornerOrder(Vec3(-1.5, -0.5, -0.5), Vec3(-0.5, 0.5, h))
    else
      assert h == 0.5 || h == 1.5;
      CornerOrder(Vec3(-1.5, -0.5, -0.5), Vec3(-0.5, 0.5, h))
  }

  /** The floor under the whole grid. Its corners stay in the order given
      unless width + height is at most one. */
  function Floor(width: U16, height: U16): (r: BoundingBox)
    ensures var a, b := Vec3(-0.5, -2.0, -0.5), Vec3(width as real + 0.5, -0.5, height as real + 0.5);
      r == if width + height <= 1 then BoundingBox(b, a) else BoundingBox(a, b)
  {
    var w, h := width as real + 0.5, height as real + 0.5;
    if width >= 2 then
      RealMulAtLeast(w / 2.5, w);
      CornerOrder(Vec3(-0.5, -2.0, -0.5), Vec3(w, -0.5, h))
    else if height >= 2 then
      RealMulAtLeast(h / 2.5, h);
      CornerOrder(Vec3(-0.5, -2.0, -0.5), Vec3(w, -0.5, h))
    else
      assert (w == 0.5 || w == 1.5) && (h == 0.5 || h == 1.5);
      CornerOrder(Vec3(-0.5, -2.0, -0.5), Vec3(w, -0.5, h))
  }

  /** A neighbour lookup that treats every cell outside the grid as blocked. */
  function Blocked(cells: seq<bool>, width: U16, height: U16, x: int, y: int): bool
    requires |cells| == width * height
  {
    if 0 <= x < width && 0 <= y < height then
      IndexInGrid(width, height, x, y);
      cells[y * width + x]
    else true
  }

  /** The cells of a line with their forward and backward neighbours: for
      row y the neighbours are in rows y + 1 and y - 1, for column x in
      columns x + 1 and x - 1. */
  function LineCells(cells: seq<bool>, width: U16, height: U16, line: Line): (r: (seq<bool>, seq<bool>, seq<bool>))
    requires |cells| == width * height
    ensures |r.0| == |r.1| == |r.2|
  {
    match line
    case Row(y) =>
      (seq(width, x => Blocked(cells, width, height, x, y)),
       seq(width, x => Blocked(cells, width, height, x, y + 1)),
       seq(width, x => Blocked(cells, width, height, x, y - 1)))
    case Column(x) =>
      (seq(height, y => Blocked(cells, width, height, x, y)),
       seq(height, y => Blocked(cells, width, height, x + 1, y)),
       seq(height, y => Blocked(cells, width, height, x - 1, y)))
  }

  /** The runs the merge finds on a line. */
  function LineRuns(cells: seq<bool>, width: U16, height: U16, line: Line): seq<Run>
    requires |cells| == width * height
  {
    var (block, fw, bk) := LineCells(cells, width, height, line);
    Scan(Activity(block, fw), Activity(block, bk), 0, None, None)
  }

  function LineBoxes(line: Line, runs: seq<Run>): (r: seq<BoundingBox>)
    ensures |r| == |runs|
  {
    seq(|runs|, i requires 0 <= i < |runs| => RunBox(line, runs[i]))
  }

  lemma LineBoxesSnoc(line: Line, runs: seq<Run>, i: int)
    requires 0 <= i < |runs|
    ensures LineBoxes(line, runs[..i + 1]) == LineBoxes(line, runs[..i]) + [RunBox(line, runs[i])]
  {
    var longer, shorter := LineBoxes(line, runs[..i + 1]), LineBoxes(line, runs[..i]);
    forall k | 0 <= k < |longer|
      ensures longer[k] == (shorter + [RunBox(line, runs[i])])[k]
    {
      assert runs[..i + 1][k] == runs[k];
      if k < i {
        assert runs[..i][k] == runs[k];
      }
    }
  }

  /** The boxes of rows 0..n-1 (or columns, when `columns` holds), in scan order. */
  function ScanBoxes(cells: seq<bool>, width: U16, height: U16, columns: bool, n: nat): seq<BoundingBox>
    requires |cells| == width * height
  {
    if n == 0 then []
    else
      var line := if columns then Column(n - 1) else Row(n - 1);
      ScanBoxes(cells, width, height, columns, n - 1) + LineBoxes(line, LineRuns(cells, width, height, line))
  }


  lemma ScanBoxesSnoc(cells: seq<bool>, width: U16, height: U16, columns: bool, k: nat)
    requires |cells| == width * height
    ensures var line := if columns then Column(k) else Row(k);
      ScanBoxes(cells, width, height, columns, k + 1)
      == ScanBoxes(cells, width, height, columns, k) + LineBoxes(line, LineRuns(cells, width, height, line))
  {
  }

  /** Every box the builder derives from a line belongs to one maximal run of
      that line, and every maximal run gives a box. */
  lemma LineBoxesAreMaximalRuns(cells: seq<bool>, width: U16, height: U16, line: Line)
    requires |cells| == width * height
    ensures var (block, fw, bk) := LineCells(cells, width, height, line);
      var runs := LineRuns(cells, width, height, line);
      (forall r :: r in runs ==>
         MaximalRun(if r.face == Front then Activity(block, fw) else Activity(block, bk), r.start, r.end)) &&
      (forall s, e :: MaximalRun(Activity(block, fw), s, e) ==> RunBox(line, Run(Front, s, e)) in LineBoxes(line, runs)) &&
      (forall s, e :: MaximalRun(Activity(block, bk), s, e) ==> RunBox(line, Run(Back, s, e)) in LineBoxes(line, runs))
  {
    var (block, fw, bk) := LineCells(cells, width, height, line);
    var f, g := Activity(block, fw), Activity(block, bk);
    var runs := LineRuns(cells, width, height, line);
    ScanFromCell(f, g, 0, None, None);
    forall r | r in runs
      ensures MaximalRun(if r.face == Front then f else g, r.start, r.end)
    {
      assert r == Run(r.face, r.start, r.end);
    }
    forall s, e | MaximalRun(f, s, e)
      ensures RunBox(line, Run(Front, s, e)) in LineBoxes(line, runs)
    {
      var i :| 0 <= i < |runs| && runs[i] == Run(Front, s, e);
      assert LineBoxes(line, runs)[i] == RunBox(line, Run(Front, s, e));
    }
    forall s, e | MaximalRun(g, s, e)
      ensures RunBox(line, Run(Back, s, e)) in LineBoxes(line, runs)
    {
      var i :| 0 <= i < |runs| && runs[i] == Run(Back, s, e);
      assert LineBoxes(line, runs)[i] == RunBox(line, Run(Back, s, e));
    }
  }

  class Maze {
    const width: U16
    const height: U16
    /** `_maze`: true means blocked. */
    var cells: seq<bool>
    /** `_aabb_list`: the box each `Aabb` stores. */
    var boxes: seq<BoundingBox>

    /** The grid has the size `initMaze` gave it, truncated to 16 bits. */
    ghost predicate Valid()
      reads this
    {
      |cells| == ToU16(width * height)
    }

    /** The constructor and the allocation in `initMaze`: every cell open. */
    constructor (width: U16, height: U16)
      ensures this.width == width && this.height == height
      ensures cells == seq(ToU16(width * height), _ => false) && boxes == []
      ensures Valid()
    {
      this.width := width;
      this.height := height;
      cells := seq(ToU16(width * height), _ => false);
      boxes := [];
    }

    /** The index `mazeBlockAt` computes. */
    function Index(x: U16, y: U16): nat {
      y * width + x
    }

    /** `mazeBlockAt` read through `.at()`, which throws past the end. */
    function BlockAt(x: U16, y: U16): (r: Result<bool>)
      reads this
      ensures r.Ok? <==> Index(x, y) < |cells|
      ensures r.Ok? ==> r.value == cells[Index(x, y)]
    {
      if Index(x, y) < |cells| then Ok(cells[Index(x, y)]) else OutOfRange
    }

    /** `mazeBlockAt(x, y) = true`: the write throws, changing nothing, past the end. */
    method SetBlocked(x: U16, y: U16) returns (ok: bool)
      modifies this`cells
      ensures ok <==> Index(x, y) < |old(cells)|
      ensures cells == if ok then old(cells)[Index(x, y) := true] else old(cells)
    {
      ok := Index(x, y) < |cells|;
      if ok {
        cells := cells[Index(x, y) := true];
      }
    }

    /** The first loop of `addRandomLoop`: the top and bottom rows of the
        rectangle, column by column. It stops at the first write past the
        end, which happens exactly when the rectangle's last cell lies there. */
    method BlockRows(rect: Rect) returns (ok: bool)
      requires 0 <= rect.xa <= rect.xb < width && 0 <= rect.ya <= rect.yb < height
      modifies this`cells
      ensures ok <==> Index(rect.xb, rect.yb) < |old(cells)|
      ensures ok ==> cells == MarkRows(old(cells), width, rect, rect.xb + 1)
      ensures Grows(old(cells), cells) && Grows(cells, Carve(old(cells), width, rect))
    {
      ghost var c0 := cells;
      ok := true;
      var x := rect.xa;
      while x <= rect.xb
        invariant rect.xa <= x <= rect.xb + 1 && ok
        invariant cells == MarkRows(c0, width, rect, x)
        invariant x > rect.xa ==> Index(x - 1, rect.yb) < |c0|
      {
        ok := SetBlocked(x, rect.ya);
        if !ok {
          IndexMonotone(width, x, rect.ya, rect.xb, rect.yb);
          RowsStopBetween(c0, width, rect, x, false);
          return;
        }
        ok := SetBlocked(x, rect.yb);
        if !ok {
          IndexMonotone(width, x, rect.yb, rect.xb, rect.yb);
          RowsStopBetween(c0, width, rect, x, true);
          return;
        }
        x := x + 1;
      }
      MarkRowsGrows(c0, width, rect, rect.xa, x);
      CarveGrows(c0, width, rect, x);
    }

    /** The second loop of `addRandomLoop`: the left and right columns, row
        by row. Every write lies at or before the rectangle's last cell. */
    method BlockSides(rect: Rect)
      requires 0 <= rect.xa <= rect.xb < width && 0 <= rect.ya <= rect.yb < height
      requires Index(rect.xb, rect.yb) < |cells|
      modifies this`cells
      ensures cells == MarkSides(old(cells), width, rect, rect.yb + 1)
    {
      ghost var c0 := cells;
      var y := rect.ya;
      while y <= rect.yb
        invariant rect.ya <= y <= rect.yb + 1
        invariant cells == MarkSides(c0, width, rect, y)
      {
        IndexMonotone(width, rect.xa, y, rect.xb, rect.yb);
        var ok := SetBlocked(rect.xa, y);
        IndexMonotone(width, rect.xb, y, rect.xb, rect.yb);
        ok := SetBlocked(rect.xb, y);
        y := y + 1;
      }
    }

    /** `addRandomLoop` with its four `rand()` results: the loop's writes,
        in order. It fails (the grid was truncated) exactly when the
        rectangle's last cell lies past the end; the cells written before the
        failing one stay blocked, and nothing outside the loop's writes is. */
    method AddRandomLoop(d: Draw) returns (ok: bool)
      requires width > 0 && height > 0
      modifies this`cells
      ensures var rect := LoopRect(width, height, d);
        && (ok <==> Index(rect.xb, rect.yb) < |old(cells)|)
        && (ok ==> cells == Carve(old(cells), width, rect))
        && Grows(old(cells), cells) && Grows(cells, Carve(old(cells), width, rect))
    {
      var rect := LoopRect(width, height, d);
      ghost var c0 := cells;
      ok := BlockRows(rect);
      if ok {
        BlockSides(rect);
        CarveGrows(c0, width, rect, rect.xa);
        GrowsEquals(cells, Carve(c0, width, rect));
      }
    }

    /** One pass of `generate`'s loop: loop i of the grid that started as c0. */
    method NextLoop(ghost c0: seq<bool>, draws: seq<Draw>, i: nat) returns (ok: bool)
      requires width > 0 && height > 0 && i < |draws|
      requires cells == Carved(c0, width, height, draws, i)
      modifies this`cells
      ensures Grows(c0, cells)
      ensures ok ==> cells == Carved(c0, width, height, draws, i + 1)
      ensures |c0| == width * height ==> ok
    {
      ghost var rect := LoopRect(width, height, draws[i]);
      if |c0| == width * height {
        IndexInGrid(width, height, rect.xb, rect.yb);
      }
      ok := AddRandomLoop(draws[i]);
      CarveThroughIsCarve(old(cells), width, rect, 2);
      CarvedGrows(c0, width, height, draws, i);
      GrowsTransitive(c0, old(cells), cells);
    }

    /** `generate`: (width + height) / 6 loops, loop k drawing draws[k].
        It never opens a cell; on an untruncated grid every loop succeeds and
        the grid is the one `Carved` describes. */
    method Generate(draws: seq<Draw>) returns (ok: bool)
      requires Iterations(width, height) == 0 || (width > 0 && height > 0)
      requires Iterations(width, height) <= |draws|
      modifies this`cells
      ensures Grows(old(cells), cells)
      ensures ok ==> cells == Carved(old(cells), width, height, draws, Iterations(width, height))
      ensures |old(cells)| == width * height ==> ok
    {
      var it := Iterations(width, height);
      ghost var c0 := cells;
      ok := true;
      var i := 0;
      while i < it
        invariant 0 <= i <= it
        invariant cells == Carved(c0, width, height, draws, i)
        invariant ok
      {
        ok := NextLoop(c0, draws, i);
        if !ok {
          return;
        }
        i := i + 1;
      }
      CarvedGrows(c0, width, height, draws, it);
    }

    /** `generateAabb` as written: every lookup goes through `mazeBlockAt`
        unguarded, so the backward neighbour of row 0 is row 65535 and the
        method fails (`.at()` throws) unless that lookup succeeds. */
    method GenerateAabbAsWritten() returns (ok: bool)
      modifies this`boxes
      ensures ok ==> width == 0 || height == 0 || BlockAt(0, ToU16(0 - 1)).Ok?
      ensures (width == 0 || height == 0) ==> ok && boxes == old(boxes) + [OuterWall(height), Floor(width, height)]
      ensures Valid() && width > 0 && height > 0 ==> !ok
    {
      if Valid() && width > 0 {
        OriginBackLookupOutOfRange(this);
      }
      // horizontal boxes
      var y := 0;
      while y < height
        invariant 0 <= y <= height
        invariant y > 0 && width > 0 ==> BlockAt(0, ToU16(0 - 1)).Ok?
        invariant width == 0 || height == 0 ==> boxes == old(boxes)
      {
        var front: Option<int> := None;
        var back: Option<int> := None;
        var x := 0;
        while x < width
          invariant 0 <= x <= width
          invariant (x > 0 || (y > 0 && width > 0)) ==> BlockAt(0, ToU16(0 - 1)).Ok?
          invariant width == 0 || height == 0 ==> boxes == old(boxes)
        {
          var block := BlockAt(x, y);
          if block.OutOfRange? { return false; }
          var fw := BlockAt(x, ToU16(y + 1));
          if fw.OutOfRange? { return false; }
          var bk := BlockAt(x, ToU16(y - 1));
          if bk.OutOfRange? { return false; }
          if !block.value && fw.value && front.None? {
            front := Some(x);
          }
          if (block.value || (!block.value && !fw.value)) && front.Some? {
            boxes := boxes + [RunBox(Row(y), Run(Front, front.value, x - 1))];
            front := None;
          }
          if !block.value && bk.value && back.None? {
            back := Some(x);
          }
          if (block.value || (!block.value && !bk.value)) && back.Some? {
            boxes := boxes + [RunBox(Row(y), Run(Back, back.value, x - 1))];
            back := None;
          }
          x := x + 1;
        }
        y := y + 1;
      }
      // vertical boxes
      var x := 0;
      while x < width
        invariant 0 <= x <= width
        invariant width == 0 || height == 0 ==> boxes == old(boxes)
      {
        var front: Option<int> := None;
        var back: Option<int> := None;
        y := 0;
        while y < height
          invariant 0 <= y <= height
          invariant width == 0 || height == 0 ==> boxes == old(boxes)
        {
          var block := BlockAt(x, y);
          if block.OutOfRange? { return false; }
          var fw := BlockAt(ToU16(x + 1), y);
          if fw.OutOfRange? { return false; }
          var bk := BlockAt(ToU16(x - 1), y);
          if bk.OutOfRange? { return false; }
          if !block.value && fw.value && front.None? {
            front := Some(y);
          }
          if (block.value || (!block.value && !fw.value)) && front.Some? {
            boxes := boxes + [RunBox(Column(x), Run(Front, front.value, y - 1))];
            front := None;
          }
          if !block.value && bk.value && back.None? {
            back := Some(y);
          }
          if (block.value || (!block.value && !bk.value)) && back.Some? {
            boxes := boxes + [RunBox(Column(x), Run(Back, back.value, y - 1))];
            back := None;
          }
          y := y + 1;
        }
        x := x + 1;
      }
      boxes := boxes + [OuterWall(height), Floor(width, height)];
      ok := true;
    }

    /** The boxes of the given runs of a line, appended in order. */
    method AppendRunBoxes(line: Line, runs: seq<Run>)
      modifies this`boxes
      ensures boxes == old(boxes) + LineBoxes(line, runs)
    {
      var i := 0;
      while i < |runs|
        invariant 0 <= i <= |runs|
        invariant boxes == old(boxes) + LineBoxes(line, runs[..i])
      {
        LineBoxesSnoc(line, runs, i);
        boxes := boxes + [RunBox(line, runs[i])];
        i := i + 1;
      }
      assert runs[..i] == runs;
    }

    /** The boxes of one line, appended in the order the merge emits them. */
    method AddLineBoxes(line: Line)
      requires |cells| == width * height
      modifies this`boxes
      ensures boxes == old(boxes) + LineBoxes(line, LineRuns(cells, width, height, line))
    {
      var (block, fw, bk) := LineCells(cells, width, height, line);
      var runs := ScanLine(block, fw, bk);
      AppendRunBoxes(line, runs);
    }

    /** One pass of `generateAabb`: every row, or every column, in order. */
    method AddScanBoxes(columns: bool)
      requires |cells| == width * height
      modifies this`boxes
      ensures boxes == old(boxes) + ScanBoxes(cells, width, height, columns, if columns then width else height)
    {
      var n := if columns then width else height;
      var k := 0;
      while k < n
        invariant 0 <= k <= n
        invariant boxes == old(boxes) + ScanBoxes(cells, width, height, columns, k)
      {
        var line := if columns then Column(k) else Row(k);
        ScanBoxesSnoc(cells, width, height, columns, k);
        ghost var done, added := ScanBoxes(cells, width, height, columns, k), LineBoxes(line, LineRuns(cells, width, height, line));
        AddLineBoxes(line);
        AppendAssociative(old(boxes), done, added);
        k := k + 1;
      }
    }

    /** `generateAabb` with every neighbour outside the grid read as blocked:
        the row runs, then the column runs, then the outer wall and the floor. */
    method GenerateAabb()
      requires |cells| == width * height
      modifies this`boxes
      ensures boxes == old(boxes) + ScanBoxes(cells, width, height, false, height)
                      + ScanBoxes(cells, width, height, true, width) + [OuterWall(height), Floor(width, height)]
    {
      AddScanBoxes(false);
      AddScanBoxes(true);
      boxes := boxes + [OuterWall(height), Floor(width, height)];
    }
  }

  /** Every row index of a grid reaches past its cells, so the backward
      lookup of cell (0, 0), at row 65535, is always out of range. */
  lemma OriginBackLookupOutOfRange(m: Maze)
    requires m.Valid() && m.width > 0
    ensures m.BlockAt(0, ToU16(0 - 1)) == OutOfRange
  {
    MulLeq(1, m.width, 65535);
  }

  /** The forward lookup of the last row, at row `height`, is out of range. */
  lemma LastRowForwardLookupOutOfRange(m: Maze, x: U16)
    requires m.Valid() && 0 < m.height && x < m.width
    ensures m.BlockAt(x, ToU16(m.height - 1 + 1)) == OutOfRange
  {
    assert m.Index(x, m.height) >= m.height * m.width;
  }

  /** The forward lookup of the last column, at column `width`, reads the
      first cell of the next row instead. */
  lemma LastColumnForwardWraps(m: Maze, y: U16)
    requires 0 < m.width && y + 1 < m.height
    ensures m.BlockAt(ToU16(m.width - 1 + 1), y) == m.BlockAt(0, y + 1)
  {
    assert m.Index(m.width, y) == (y + 1) * m.width;
  }

  /** In the last row, the forward lookup of the last column is out of range:
      its index is height * width, at or past the end of the grid. */
  lemma LastColumnForwardLastRowOutOfRange(m: Maze)
    requires m.Valid() && 0 < m.width && 0 < m.height
    ensures m.BlockAt(ToU16(m.width - 1 + 1), m.height - 1) == OutOfRange
  {
    assert m.Index(m.width, m.height - 1) == m.height * m.width;
  }

  /** All 65536 cells of a 256 by 256 grid truncate away to an empty one. */
  /** `printMaze` reads every cell (x, y) with x < width and y < height,
      through `.at()`. With both sides non-zero, the last of those reads,
      at (width - 1, height - 1), is out of range exactly when `initMaze`
      truncated the grid. `generate` never changes the grid's length, so
      on a truncated grid `initMaze` throws in `printMaze` even when every
      loop of `generate` succeeded. */
  lemma PrintLastCellOutOfRangeIffTruncated(m: Maze)
    requires m.Valid() && 0 < m.width && 0 < m.height
    ensures m.BlockAt(m.width - 1, m.height - 1) == OutOfRange <==> |m.cells| != m.width * m.height
  {
    var n := m.width * m.height;
    assert m.Index(m.width - 1, m.height - 1) == n - 1;
    assert ToU16(n) <= n;
  }

  lemma FullSizeGridTruncatesToEmpty(m: Maze)
    requires m.Valid() && m.width == 256 && m.height == 256
    ensures m.cells == []
  {
  }
}

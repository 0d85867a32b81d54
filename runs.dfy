/** The run merge at the heart of the wall-box builder. One scan walks a
    line of cells with two accumulators: a "front" run of open cells whose
    forward neighbour is blocked and a "back" run of open cells whose
    backward neighbour is blocked. A run is emitted when it ends; a run
    still open at the end of the line is dropped. */
module RunMerge {
  import opened Outcomes

  datatype Face = Front | Back

  /** A finished run, covering cells start..end inclusive. */
  datatype Run = Run(face: Face, start: int, end: int)

  /** The cells that take part in a run: open, with a blocked neighbour. */
  function Activity(block: seq<bool>, neighbour: seq<bool>): seq<bool>
    requires |block| == |neighbour|
  {
    seq(|block|, i requires 0 <= i < |block| => !block[i] && neighbour[i])
  }

  /** s..e is a maximal stretch of active cells that ends before the last
      cell of the line. */
  predicate MaximalRun(act: seq<bool>, s: int, e: int) {
    && 0 <= s <= e
    && e + 1 < |act|
    && (forall i :: s <= i <= e ==> act[i])
    && (s == 0 || !act[s - 1])
    && !act[e + 1]
  }

  /** What an accumulator holds before cell x: nothing, when the previous
      cell is inactive; otherwise the start of the maximal stretch of
      active cells that reaches x - 1. */
  predicate Pending(act: seq<bool>, x: int, acc: Option<int>) {
    0 <= x <= |act| &&
    match acc
    case None => x == 0 || !act[x - 1]
    case Some(s) => 0 <= s < x && (forall i :: s <= i < x ==> act[i]) && (s == 0 || !act[s - 1])
  }

  /** One accumulator meeting cell x: an active cell starts a run if none is
      open; an inactive cell ends the open run, if any. */
  function Step(face: Face, active: bool, x: int, acc: Option<int>): (r: (Option<int>, seq<Run>))
    ensures |r.1| <= 1 && forall run :: run in r.1 ==> run.face == face && run.end == x - 1
    ensures r.0.Some? <==> active
  {
    if active then (if acc.None? then Some(x) else acc, [])
    else if acc.Some? then (None, [Run(face, acc.value, x - 1)])
    else (None, [])
  }

  /** The emissions of a scan from cell x on, front before back at each cell. */
  function Scan(f: seq<bool>, g: seq<bool>, x: int, front: Option<int>, back: Option<int>): seq<Run>
    requires |f| == |g| && 0 <= x <= |f|
    decreases |f| - x
  {
    if x == |f| then []
    else
      var (front', fronts) := Step(Front, f[x], x, front);
      var (back', backs) := Step(Back, g[x], x, back);
      fronts + backs + Scan(f, g, x + 1, front', back')
  }

  /** Emissions are ordered by the cell that ends them, front before back
      when both end at the same cell. */
  predicate Ordered(runs: seq<Run>) {
    forall i, j :: 0 <= i < j < |runs| ==> Before(runs[i], runs[j])
  }

  predicate Before(r: Run, t: Run) {
    r.end < t.end || (r.end == t.end && r.face == Front && t.face == Back)
  }

  lemma OrderedAppend(a: seq<Run>, b: seq<Run>)
    requires Ordered(a) && Ordered(b)
    requires forall i, j :: 0 <= i < |a| && 0 <= j < |b| ==> Before(a[i], b[j])
    ensures Ordered(a + b)
  {
    var ab := a + b;
    forall i, j | 0 <= i < j < |ab|
      ensures Before(ab[i], ab[j])
    {
      if j < |a| {
        assert ab[i] == a[i] && ab[j] == a[j];
      } else if i < |a| {
        assert ab[i] == a[i] && ab[j] == b[j - |a|];
      } else {
        assert ab[i] == b[i - |a|] && ab[j] == b[j - |a|];
      }
    }
  }

  /** From cell x on, the scan emits exactly the maximal runs that end at
      x - 1 or later. */
  lemma {:induction false} ScanFromCell(f: seq<bool>, g: seq<bool>, x: int, front: Option<int>, back: Option<int>)
    requires |f| == |g| && Pending(f, x, front) && Pending(g, x, back)
    ensures forall s, e :: Run(Front, s, e) in Scan(f, g, x, front, back) <==> MaximalRun(f, s, e) && x <= e + 1
    ensures forall s, e :: Run(Back, s, e) in Scan(f, g, x, front, back) <==> MaximalRun(g, s, e) && x <= e + 1
    decreases |f| - x
  {
    if x < |f| {
      var (front', fronts) := Step(Front, f[x], x, front);
      var (back', backs) := Step(Back, g[x], x, back);
      StepKeepsPending(f, x, front);
      StepKeepsPending(g, x, back);
      ScanFromCell(f, g, x + 1, front', back');
      var rest := Scan(f, g, x + 1, front', back');
      assert Scan(f, g, x, front, back) == fronts + backs + rest;
      forall s, e
        ensures Run(Front, s, e) in fronts <==> MaximalRun(f, s, e) && e + 1 == x
      {
        EndingRun(f, x, front, s, e);
      }
      forall s, e
        ensures Run(Back, s, e) in backs <==> MaximalRun(g, s, e) && e + 1 == x
      {
        EndingRun(g, x, back, s, e);
      }
    }
  }

  /** Everything the scan emits from cell x on ends at x - 1 or later. */
  lemma {:induction false} ScanEndsFrom(f: seq<bool>, g: seq<bool>, x: int, front: Option<int>, back: Option<int>)
    requires |f| == |g| && 0 <= x <= |f|
    ensures forall r :: r in Scan(f, g, x, front, back) ==> x - 1 <= r.end
    decreases |f| - x
  {
    if x < |f| {
      var (front', fronts) := Step(Front, f[x], x, front);
      var (back', backs) := Step(Back, g[x], x, back);
      ScanEndsFrom(f, g, x + 1, front', back');
      assert Scan(f, g, x, front, back) == fronts + backs + Scan(f, g, x + 1, front', back');
    }
  }

  /** The scan emits runs in the order the cells that end them come, front
      before back at the same cell. */
  lemma {:induction false} ScanOrdered(f: seq<bool>, g: seq<bool>, x: int, front: Option<int>, back: Option<int>)
    requires |f| == |g| && 0 <= x <= |f|
    ensures Ordered(Scan(f, g, x, front, back))
    decreases |f| - x
  {
    if x < |f| {
      var (front', fronts) := Step(Front, f[x], x, front);
      var (back', backs) := Step(Back, g[x], x, back);
      var rest := Scan(f, g, x + 1, front', back');
      ScanOrdered(f, g, x + 1, front', back');
      ScanEndsFrom(f, g, x + 1, front', back');
      assert Scan(f, g, x, front, back) == fronts + backs + rest;
      OrderedAppend(fronts, backs);
      OrderedAppend(fronts + backs, rest);
    }
  }

  /** An accumulator still describes the line after one more cell. */
  lemma StepKeepsPending(act: seq<bool>, x: int, acc: Option<int>)
    requires Pending(act, x, acc) && x < |act|
    ensures Pending(act, x + 1, Step(Front, act[x], x, acc).0)
    ensures Pending(act, x + 1, Step(Back, act[x], x, acc).0)
  {
  }

  /** The run an accumulator emits at cell x is the unique maximal run that
      ends at x - 1. */
  lemma EndingRun(act: seq<bool>, x: int, acc: Option<int>, s: int, e: int)
    requires Pending(act, x, acc) && x < |act|
    ensures Run(Front, s, e) in Step(Front, act[x], x, acc).1 <==> MaximalRun(act, s, e) && e + 1 == x
    ensures Run(Back, s, e) in Step(Back, act[x], x, acc).1 <==> MaximalRun(act, s, e) && e + 1 == x
  {
  }

  lemma AppendAssociative<T>(a: seq<T>, b: seq<T>, c: seq<T>)
    ensures (a + b) + c == a + (b + c)
  {
  }

  /** One cell of the scan: the two steps' emissions, then the rest. */
  lemma ScanStep(f: seq<bool>, g: seq<bool>, x: int, front: Option<int>, back: Option<int>)
    requires |f| == |g| && 0 <= x < |f|
    ensures Scan(f, g, x, front, back)
      == Step(Front, f[x], x, front).1 + Step(Back, g[x], x, back).1
         + Scan(f, g, x + 1, Step(Front, f[x], x, front).0, Step(Back, g[x], x, back).0)
  {
  }

  /** The two tests the merge makes on one accumulator compute `Step`. */
  lemma StepIsTheTwoTests(face: Face, isBlock: bool, isNeighbour: bool, x: int, acc: Option<int>)
    ensures var started := if !isBlock && isNeighbour && acc.None? then Some(x) else acc;
      var closes := (isBlock || (!isBlock && !isNeighbour)) && started.Some?;
      Step(face, !isBlock && isNeighbour, x, acc)
      == if closes then (None, [Run(face, started.value, x - 1)]) else (started, [])
  {
  }

  /** The merge of one line: `front` and `back` are the two accumulators
      and every finished run is appended to `out`. Cell x is active for the
      front run when it is open and `fw[x]` is blocked, and for the back run
      when it is open and `bk[x]` is blocked. */
  method ScanLine(block: seq<bool>, fw: seq<bool>, bk: seq<bool>) returns (out: seq<Run>)
    requires |block| == |fw| == |bk|
    ensures out == Scan(Activity(block, fw), Activity(block, bk), 0, None, None)
    ensures forall s, e :: Run(Front, s, e) in out <==> MaximalRun(Activity(block, fw), s, e)
    ensures forall s, e :: Run(Back, s, e) in out <==> MaximalRun(Activity(block, bk), s, e)
    ensures Ordered(out)
  {
    ghost var f, g := Activity(block, fw), Activity(block, bk);
    var front: Option<int> := None;
    var back: Option<int> := None;
    out := [];
    var x := 0;
    while x < |block|
      invariant 0 <= x <= |block|
      invariant out + Scan(f, g, x, front, back) == Scan(f, g, 0, None, None)
    {
      var isBlock, isFw, isBk := block[x], fw[x], bk[x];
      ghost var front0, back0, out0 := front, back, out;
      if !isBlock && isFw && front.None? {
        front := Some(x);
      }
      if (isBlock || (!isBlock && !isFw)) && front.Some? {
        out := out + [Run(Front, front.value, x - 1)];
        front := None;
      }
      ghost var out1 := out;
      if !isBlock && isBk && back.None? {
        back := Some(x);
      }
      if (isBlock || (!isBlock && !isBk)) && back.Some? {
        out := out + [Run(Back, back.value, x - 1)];
        back := None;
      }
      assert f[x] == (!isBlock && isFw) && g[x] == (!isBlock && isBk);
      StepIsTheTwoTests(Front, isBlock, isFw, x, front0);
      StepIsTheTwoTests(Back, isBlock, isBk, x, back0);
      ghost var fronts, backs := Step(Front, f[x], x, front0).1, Step(Back, g[x], x, back0).1;
      assert front == Step(Front, f[x], x, front0).0 && out1 == out0 + fronts;
      assert back == Step(Back, g[x], x, back0).0 && out == out1 + backs;
      ScanStep(f, g, x, front0, back0);
      ghost var rest := Scan(f, g, x + 1, front, back);
      AppendAssociative(out0, fronts, backs);
      AppendAssociative(out0, fronts + backs, rest);
      x := x + 1;
    }
    ScanFromCell(f, g, 0, None, None);
    ScanOrdered(f, g, 0, None, None);
  }

  /** A line of seven open cells whose forward neighbours are a wall of five
      blocked cells with an open cell at each end, and whose backward
      neighbours are all blocked (the edge of the grid): one front run for
      the five cells, not one per cell; the back run reaches the last cell
      and is dropped. */
  lemma FiveCellWallGivesOneRun()
    ensures Scan(Activity(seq(7, _ => false), [false, true, true, true, true, true, false]),
                 Activity(seq(7, _ => false), seq(7, _ => true)), 0, None, None)
            == [Run(Front, 1, 5)]
  {
    assert Activity(seq(7, _ => false), [false, true, true, true, true, true, false])
        == [false, true, true, true, true, true, false];
    assert Activity(seq(7, _ => false), seq(7, _ => true)) == [true, true, true, true, true, true, true];
  }
}

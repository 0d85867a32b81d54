/** The wireframe of a box: its eight corners and its twelve edges as a
    list of 24 line vertices. The GL buffer upload is not modelled. */
module Wireframe {
  import opened Outcomes
  import opened Bounds

  /** Which of the two given points a coordinate is taken from. */
  datatype Side = K | L

  /** One corner, described by the source of each of its coordinates. */
  datatype Pick = Pick(x: Side, y: Side, z: Side)

  function Select(k: Vec3, l: Vec3, p: Pick): Vec3 {
    Vec3(if p.x == K then k.x else l.x,
         if p.y == K then k.y else l.y,
         if p.z == K then k.z else l.z)
  }

  /** The corners p1..p8, built as `Box::init` builds them. */
  function Corners(k: Vec3, l: Vec3): seq<Vec3> {
    [Vec3(k.x, k.y, k.z), Vec3(k.x, k.y, l.z), Vec3(l.x, k.y, l.z), Vec3(l.x, k.y, k.z),
     Vec3(k.x, l.y, k.z), Vec3(k.x, l.y, l.z), Vec3(l.x, l.y, l.z), Vec3(l.x, l.y, k.z)]
  }

  /** The vertex list: bottom loop, top loop, then the four verticals. */
  function Vertices(k: Vec3, l: Vec3): seq<Vec3> {
    var p := Corners(k, l);
    [p[0], p[1], p[1], p[2], p[2], p[3], p[3], p[0],
     p[4], p[5], p[5], p[6], p[6], p[7], p[7], p[4],
     p[0], p[4], p[1], p[5], p[2], p[6], p[3], p[7]]
  }

  /** `Box::init` on its point list: `at(0)` and `at(1)` throw on a list
      shorter than two; otherwise the 24 vertices, whose number becomes the
      vertex count. */
  function Init(points: seq<Vec3>): (r: Result<seq<Vec3>>)
    ensures r.OutOfRange? <==> |points| < 2
    ensures r.Ok? ==> |r.value| == 24
    ensures r.Ok? ==> forall j :: 0 <= j < 12 ==>
      && r.value[2 * j] == Select(points[0], points[1], CornerPicks[Segments[j].0])
      && r.value[2 * j + 1] == Select(points[0], points[1], CornerPicks[Segments[j].1])
  {
    if |points| < 2 then OutOfRange
    else
      VerticesFollowSegments(points[0], points[1]);
      Ok(Vertices(points[0], points[1]))
  }

  /** Where p1..p8 take their coordinates from. */
  const CornerPicks: seq<Pick> :=
    [Pick(K, K, K), Pick(K, K, L), Pick(L, K, L), Pick(L, K, K),
     Pick(K, L, K), Pick(K, L, L), Pick(L, L, L), Pick(L, L, K)]

  /** The segments as pairs of corner numbers (0 is p1). */
  const Segments: seq<(int, int)> :=
    [(0, 1), (1, 2), (2, 3), (3, 0), (4, 5), (5, 6), (6, 7), (7, 4),
     (0, 4), (1, 5), (2, 6), (3, 7)]

  /** Two corners joined by a cube edge differ in exactly one coordinate's source. */
  predicate Adjacent(p: Pick, q: Pick) {
    (if p.x != q.x then 1 else 0) + (if p.y != q.y then 1 else 0) + (if p.z != q.z then 1 else 0) == 1
  }

  /** The indices of the segments that have corner c as an endpoint. */
  function IncidentSegments(c: int): set<int> {
    set i | 0 <= i < |Segments| && (Segments[i].0 == c || Segments[i].1 == c)
  }

  /** The position of a pick among p1..p8. */
  function PickIndex(p: Pick): (i: int)
    ensures 0 <= i < 8 && CornerPicks[i] == p
  {
    match p
    case Pick(K, K, K) => 0
    case Pick(K, K, L) => 1
    case Pick(L, K, L) => 2
    case Pick(L, K, K) => 3
    case Pick(K, L, K) => 4
    case Pick(K, L, L) => 5
    case Pick(L, L, L) => 6
    case Pick(L, L, K) => 7
  }

  /** Corner i is taken from the picks CornerPicks[i]; the eight picks are
      the eight distinct combinations, p1..p4 at k.y and p5..p8 at l.y. */
  lemma CornersAreTheEightCombinations(k: Vec3, l: Vec3)
    ensures |Corners(k, l)| == 8
    ensures forall i :: 0 <= i < 8 ==> Corners(k, l)[i] == Select(k, l, CornerPicks[i])
    ensures forall p: Pick :: p in CornerPicks
    ensures forall i, j :: 0 <= i < j < 8 ==> CornerPicks[i] != CornerPicks[j]
    ensures forall i :: 0 <= i < 4 ==> CornerPicks[i].y == K
    ensures forall i :: 4 <= i < 8 ==> CornerPicks[i].y == L
  {
    forall p: Pick ensures p in CornerPicks {
      var i := PickIndex(p);
    }
  }

  /** Vertices 2j and 2j+1 of the list are the two endpoints of segment j. */
  lemma VerticesFollowSegments(k: Vec3, l: Vec3)
    ensures |Vertices(k, l)| == 24
    ensures forall j :: 0 <= j < 12 ==>
      && Vertices(k, l)[2 * j] == Select(k, l, CornerPicks[Segments[j].0])
      && Vertices(k, l)[2 * j + 1] == Select(k, l, CornerPicks[Segments[j].1])
  {
    CornersAreTheEightCombinations(k, l);
  }

  /** Every segment joins two corners that differ in exactly one coordinate's source. */
  lemma SegmentsAreCubeEdges()
    ensures |Segments| == 12
    ensures forall i :: 0 <= i < 12 ==>
      0 <= Segments[i].0 < 8 && 0 <= Segments[i].1 < 8 &&
      Adjacent(CornerPicks[Segments[i].0], CornerPicks[Segments[i].1])
  {
  }

  /** No two segments are the same edge, in either direction. */
  lemma SegmentsAreDistinct()
    ensures forall i, j :: 0 <= i < j < 12 ==>
      Segments[i] != Segments[j] && Segments[i] != (Segments[j].1, Segments[j].0)
  {
  }

  /** Each corner is an endpoint of exactly three segments: the two of its
      own loop and one vertical. */
  lemma EachCornerEndsThreeSegments()
    ensures forall c :: 0 <= c < 8 ==> |IncidentSegments(c)| == 3
  {
    forall c | 0 <= c < 8
      ensures |IncidentSegments(c)| == 3
    {
      var prev := if c == 0 then 3 else if c == 4 then 7 else c - 1;
      var vertical := if c < 4 then 8 + c else 4 + c;
      assert IncidentSegments(c) == {prev, c, vertical};
    }
  }

  /** Every edge of the cube is listed, so the twelve segments are exactly
      the cube's edges. */
  lemma EveryCubeEdgeIsListed()
    ensures forall i, j :: 0 <= i < 8 && 0 <= j < 8 && Adjacent(CornerPicks[i], CornerPicks[j]) ==>
      (i, j) in Segments || (j, i) in Segments
  {
  }
}

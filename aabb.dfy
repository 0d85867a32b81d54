/** Axis-aligned bounding boxes: the corner ordering done by the `Aabb`
    constructor, the per-axis queries, and the collided flag. The queries are
    stated on `BoundingBox` values; `Aabb.GetBox` yields the box in world
    space that the source's query methods feed them. */
module Aabbs {
  import opened Bounds
  import opened BVecs

  /** The `Aabb` constructor's corner ordering: the pair stays as given when
      the second corner is strictly longer, otherwise it is swapped. This is
      an ordering by squared length, not a componentwise min/max. */
  function CornerOrder(a: Vec3, b: Vec3): (r: BoundingBox)
    ensures LengthSquared(r.a) <= LengthSquared(r.b)
    ensures (r.a == a && r.b == b) || (r.a == b && r.b == a)
  {
    if LengthSquared(b) > LengthSquared(a) then BoundingBox(a, b) else BoundingBox(b, a)
  }

  /** Swapping the arguments changes nothing unless the squared lengths tie;
      on a tie the second argument always ends up first. */
  lemma CornerOrderSwap(a: Vec3, b: Vec3)
    ensures LengthSquared(a) != LengthSquared(b) ==> CornerOrder(a, b) == CornerOrder(b, a)
    ensures LengthSquared(a) == LengthSquared(b) ==> CornerOrder(a, b) == BoundingBox(b, a)
  {
  }

  /** The ordering can leave an axis reversed: (1,0,0) and (0,0,2) are kept
      in that order because the second is longer, so x runs from 1 down to 0. */
  lemma CornerOrderNotComponentwise()
    ensures var box := CornerOrder(Vec3(1.0, 0.0, 0.0), Vec3(0.0, 0.0, 2.0));
      box.a.x > box.b.x && !Ordered(box)
  {
  }

  /** The default `Aabb` has both corners at the origin. */
  function DefaultBox(): (r: BoundingBox)
    ensures r.a == Origin && r.b == Origin
  {
    CornerOrder(Origin, Origin)
  }

  /** The strict one-axis test of `getOverlap`. */
  predicate AxisOverlap(lo0: real, hi0: real, lo1: real, hi1: real) {
    hi0 > lo1 && hi1 > lo0
  }

  /** `getOverlap`: the three per-axis strict interval tests. */
  function Overlap(box0: BoundingBox, box1: BoundingBox): BVec {
    BVec(AxisOverlap(box0.a.x, box0.b.x, box1.a.x, box1.b.x),
         AxisOverlap(box0.a.y, box0.b.y, box1.a.y, box1.b.y),
         AxisOverlap(box0.a.z, box0.b.z, box1.a.z, box1.b.z))
  }

  /** `hasOverlap`: all three axes overlap. */
  function HasOverlap(box0: BoundingBox, box1: BoundingBox): bool {
    Overlap(box0, box1).All()
  }

  /** `boundsPoint`: per axis, `bottom` says p is not below the first corner
      and `top` that it is not above the second. */
  function BoundsPoint(box: BoundingBox, p: Vec3): (r: Bound)
    ensures r.Inside() <==> InClosedBox(p, box)
  {
    Bound(BoundAxis(p.x >= box.a.x, p.x <= box.b.x),
          BoundAxis(p.y >= box.a.y, p.y <= box.b.y),
          BoundAxis(p.z >= box.a.z, p.z <= box.b.z))
  }

  /** `getContain`: per axis, both corners of `other` are classified inside `box`. */
  function Contain(box: BoundingBox, other: BoundingBox): BVec {
    var pa := BoundsPoint(box, other.a);
    var pb := BoundsPoint(box, other.b);
    BVec(pa.x.top && pa.x.bottom && pb.x.top && pb.x.bottom,
         pa.y.top && pa.y.bottom && pb.y.top && pb.y.bottom,
         pa.z.top && pa.z.bottom && pb.z.top && pb.z.bottom)
  }

  lemma OverlapSymmetric(box0: BoundingBox, box1: BoundingBox)
    ensures Overlap(box0, box1) == Overlap(box1, box0)
    ensures HasOverlap(box0, box1) == HasOverlap(box1, box0)
  {
  }

  /** A box overlaps itself on an axis exactly when its extent there is
      strictly positive; a zero-extent axis never overlaps under the strict test. */
  lemma SelfOverlap(box: BoundingBox)
    ensures Overlap(box, box).x <==> box.a.x < box.b.x
    ensures Overlap(box, box).y <==> box.a.y < box.b.y
    ensures Overlap(box, box).z <==> box.a.z < box.b.z
    ensures HasOverlap(box, box) <==> PositiveExtent(box)
  {
  }

  /** For two intervals of positive length, the strict test holds exactly
      when the open intervals share a point. */
  lemma AxisOverlapSharedPoint(lo0: real, hi0: real, lo1: real, hi1: real)
    requires lo0 < hi0 && lo1 < hi1
    ensures AxisOverlap(lo0, hi0, lo1, hi1) <==> exists t :: InOpen(t, lo0, hi0) && InOpen(t, lo1, hi1)
  {
    if AxisOverlap(lo0, hi0, lo1, hi1) {
      var t := Midpoint(lo0, hi0, lo1, hi1);
      assert InOpen(t, lo0, hi0) && InOpen(t, lo1, hi1);
    }
  }

  /** The midpoint of the intersection of [lo0, hi0] and [lo1, hi1]. */
  function Midpoint(lo0: real, hi0: real, lo1: real, hi1: real): real {
    ((if lo0 < lo1 then lo1 else lo0) + (if hi0 < hi1 then hi0 else hi1)) / 2.0
  }

  /** For boxes of positive extent, `hasOverlap` holds exactly when the two
      open boxes share a point. */
  lemma HasOverlapSharedPoint(box0: BoundingBox, box1: BoundingBox)
    requires PositiveExtent(box0) && PositiveExtent(box1)
    ensures HasOverlap(box0, box1) <==> exists p :: InOpenBox(p, box0) && InOpenBox(p, box1)
  {
    if HasOverlap(box0, box1) {
      var p := Vec3(Midpoint(box0.a.x, box0.b.x, box1.a.x, box1.b.x),
                    Midpoint(box0.a.y, box0.b.y, box1.a.y, box1.b.y),
                    Midpoint(box0.a.z, box0.b.z, box1.a.z, box1.b.z));
      assert InOpenBox(p, box0) && InOpenBox(p, box1);
    } else {
      forall p | InOpenBox(p, box0)
        ensures !InOpenBox(p, box1)
      {
      }
    }
  }

  /** For a componentwise-ordered `other`, `getContain` holds on an axis
      exactly when the whole interval of `other` lies inside that of `box`. */
  lemma ContainMeansEnclosure(box: BoundingBox, other: BoundingBox)
    requires Ordered(other)
    ensures Contain(box, other).x <==>
      forall t :: InClosed(t, other.a.x, other.b.x) ==> InClosed(t, box.a.x, box.b.x)
    ensures Contain(box, other).y <==>
      forall t :: InClosed(t, other.a.y, other.b.y) ==> InClosed(t, box.a.y, box.b.y)
    ensures Contain(box, other).z <==>
      forall t :: InClosed(t, other.a.z, other.b.z) ==> InClosed(t, box.a.z, box.b.z)
  {
    assert InClosed(other.a.x, other.a.x, other.b.x) && InClosed(other.b.x, other.a.x, other.b.x);
    assert InClosed(other.a.y, other.a.y, other.b.y) && InClosed(other.b.y, other.a.y, other.b.y);
    assert InClosed(other.a.z, other.a.z, other.b.z) && InClosed(other.b.z, other.a.z, other.b.z);
  }

  /** For any `other`, ordered or not, `getContain` holds on all axes
      exactly when both corners of `other` lie in the closed box. */
  lemma ContainAllMeansCornersInside(box: BoundingBox, other: BoundingBox)
    ensures Contain(box, other).All() <==> InClosedBox(other.a, box) && InClosedBox(other.b, box)
  {
  }

  /** A box contains itself on an axis exactly when its corners are ordered there. */
  lemma SelfContain(box: BoundingBox)
    ensures Contain(box, box).x <==> box.a.x <= box.b.x
    ensures Contain(box, box).y <==> box.a.y <= box.b.y
    ensures Contain(box, box).z <==> box.a.z <= box.b.z
  {
  }

  /** The default box has zero extent, so it overlaps neither itself nor
      another default box; under the strict test it still overlaps exactly
      the boxes whose open interior holds the origin. */
  lemma DefaultBoxOverlap(box: BoundingBox)
    ensures Overlap(DefaultBox(), DefaultBox()) == Uniform(false)
    ensures HasOverlap(DefaultBox(), box) <==> InOpenBox(Origin, box)
  {
  }

  /** One bounding volume. The model matrix of its scene node is an
      arbitrary function applied to both corners; `signals` counts the
      emissions of the `collided` signal. */
  class Aabb {
    const ab: BoundingBox
    const name: string
    const model: Vec3 -> Vec3
    var collided: bool
    var signals: nat

    /** The constructor orders the corners; the collided flag has no visible
        initial value in the source, so it is a parameter. */
    constructor (a: Vec3, b: Vec3, name: string, model: Vec3 -> Vec3, collided: bool)
      ensures ab == CornerOrder(a, b) && this.name == name && this.model == model
      ensures this.collided == collided && signals == 0
    {
      ab := CornerOrder(a, b);
      this.name := name;
      this.model := model;
      this.collided := collided;
      signals := 0;
    }

    /** `getBox`: the stored corners mapped by the model matrix. */
    function GetBox(): (r: BoundingBox)
      ensures r.a == model(ab.a) && r.b == model(ab.b)
      ensures (forall v :: model(v) == v) ==> r == ab
    {
      BoundingBox(model(ab.a), model(ab.b))
    }

    /** `getOverlap`: the per-axis test on the two boxes in world space. */
    function GetOverlap(other: Aabb): BVec {
      Overlap(GetBox(), other.GetBox())
    }

    /** `hasOverlap`: all three axes of `GetOverlap`; what it means is
        stated by `AabbHasOverlapSharedPoint`. */
    function HasOverlapWith(other: Aabb): bool {
      GetOverlap(other).All()
    }

    /** `boundsPoint`, on the box in world space. */
    function BoundsPointOf(p: Vec3): (r: Bound)
      ensures r.Inside() <==> InClosedBox(p, GetBox())
    {
      BoundsPoint(GetBox(), p)
    }

    /** `getContain`: both corners of the other box in world space tested
        against this one. */
    function GetContain(other: Aabb): (r: BVec)
      ensures r.All() <==> InClosedBox(other.GetBox().a, GetBox()) && InClosedBox(other.GetBox().b, GetBox())
    {
      ContainAllMeansCornersInside(GetBox(), other.GetBox());
      Contain(GetBox(), other.GetBox())
    }

    /** `setCollided`: the signal fires only on a false-to-true edge. */
    method SetCollided(c: bool)
      modifies this
      ensures collided == c
      ensures signals == old(signals) + (if c && !old(collided) then 1 else 0)
    {
      if c && collided != c {
        signals := signals + 1;
      }
      collided := c;
    }

    function IsCollided(): (r: bool)
      reads this
      ensures r == collided
    {
      collided
    }

    /** `isObstacle`: an unnamed box is an obstacle. */
    function IsObstacle(): (r: bool)
      ensures r <==> name == []
    {
      |name| == 0
    }
  }

  /** For volumes of positive extent in world space, `hasOverlap` holds
      exactly when their open boxes share a point. */
  lemma AabbHasOverlapSharedPoint(p: Aabb, q: Aabb)
    requires PositiveExtent(p.GetBox()) && PositiveExtent(q.GetBox())
    ensures p.HasOverlapWith(q) <==> exists v :: InOpenBox(v, p.GetBox()) && InOpenBox(v, q.GetBox())
  {
    HasOverlapSharedPoint(p.GetBox(), q.GetBox());
  }

  /** The object-level queries are symmetric in the two volumes. */
  lemma AabbOverlapSymmetric(p: Aabb, q: Aabb)
    ensures p.GetOverlap(q) == q.GetOverlap(p)
    ensures p.HasOverlapWith(q) == q.HasOverlapWith(p)
  {
    OverlapSymmetric(p.GetBox(), q.GetBox());
  }

  /** Setting the flag twice to true fires the signal at most once, and not
      at all when the box was already collided. */
  method SetCollidedTwice(box: Aabb)
    modifies box
    ensures box.IsCollided()
    ensures box.signals == old(box.signals) + (if old(box.collided) then 0 else 1)
  {
    box.SetCollided(true);
    box.SetCollided(true);
  }
}

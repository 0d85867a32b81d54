/** A three-component boolean vector, the per-axis answer of the box queries. */
module BVecs {

  datatype BVec = BVec(x: bool, y: bool, z: bool) {

    /** `any()`: at least one component holds. */
    predicate Any() { x || y || z }

    /** `all()`: every component holds. */
    predicate All() { x && y && z }

    /** `operator &=`: builds the componentwise conjunction as a new value;
        the receiver, a datatype value, cannot change. */
    function AndAssign(a: BVec): (r: BVec)
      ensures r.All() <==> All() && a.All()
      ensures r.Any() ==> Any() && a.Any()
    {
      BVec(x && a.x, y && a.y, z && a.z)
    }
  }

  /** The one-argument constructor `BVec(x)`. */
  function Uniform(v: bool): (r: BVec)
    ensures r.All() == v && r.Any() == v
  {
    BVec(v, v, v)
  }

  /** `operator &`, which the source defines through `&=`. */
  function And(a: BVec, b: BVec): (r: BVec)
    ensures r.All() <==> a.All() && b.All()
    ensures r.Any() ==> a.Any() && b.Any()
  {
    a.AndAssign(b)
  }

  lemma AndIsComponentwise(a: BVec, b: BVec)
    ensures And(a, b) == BVec(a.x && b.x, a.y && b.y, a.z && b.z)
  {
  }

  lemma AndCommutative(a: BVec, b: BVec)
    ensures And(a, b) == And(b, a)
  {
  }

  lemma AndAssociative(a: BVec, b: BVec, c: BVec)
    ensures And(And(a, b), c) == And(a, And(b, c))
  {
  }

  lemma AndIdempotent(a: BVec)
    ensures And(a, a) == a
  {
  }

  /** `BVec(true)` is the unit of `&` and `BVec(false)` absorbs it. */
  lemma AndUnitAndZero(a: BVec)
    ensures And(Uniform(true), a) == a && And(a, Uniform(true)) == a
    ensures And(Uniform(false), a) == Uniform(false) && And(a, Uniform(false)) == Uniform(false)
  {
  }

  lemma AllImpliesAny(a: BVec)
    ensures a.All() ==> a.Any()
  {
  }
}

/**
 * The default-radius allocator for new polygons: radii of removed polygons are reused last in,
 * first out; otherwise a counter steps outward from the base radius.
 */
module Radii {

  const BaseRadius: real := 40.0
  const RadiusStep: real := 35.0

  /** The k-th radius the counter hands out. */
  function CounterRadius(k: int): real
  {
    BaseRadius + k as real * RadiusStep
  }

  /** Counter radii grow strictly, so two fresh allocations never share a radius. */
  lemma CounterRadiusIncreasing(j: int, k: int)
    requires j < k
    ensures CounterRadius(j) < CounterRadius(k)
  {
  }

  class RadiusAllocator {
    var availableRadii: seq<real>
    var nextRadiusIndex: int

    ghost predicate Valid()
      reads this
    {
      nextRadiusIndex >= 0
    }

    constructor ()
      ensures Valid() && availableRadii == [] && nextRadiusIndex == 0
    {
      availableRadii := [];
      nextRadiusIndex := 0;
    }

    /** getNextRadius: pop the most recently recycled radius, else take the next counter radius. */
    method GetNextRadius() returns (r: real)
      requires Valid()
      modifies this
      ensures Valid()
      ensures old(availableRadii) != [] ==>
                && r == old(availableRadii)[|old(availableRadii)| - 1]
                && availableRadii == old(availableRadii)[..|old(availableRadii)| - 1]
                && nextRadiusIndex == old(nextRadiusIndex)
      ensures old(availableRadii) == [] ==>
                && r == CounterRadius(old(nextRadiusIndex))
                && r >= BaseRadius
                && availableRadii == []
                && nextRadiusIndex == old(nextRadiusIndex) + 1
    {
      if |availableRadii| > 0 {
        r := availableRadii[|availableRadii| - 1];
        availableRadii := availableRadii[..|availableRadii| - 1];
        return;
      }
      r := BaseRadius + nextRadiusIndex as real * RadiusStep;
      nextRadiusIndex := nextRadiusIndex + 1;
    }

    /** recycleRadius: push the radius of a removed polygon. */
    method RecycleRadius(radius: real)
      requires Valid()
      modifies this`availableRadii
      ensures Valid()
      ensures availableRadii == old(availableRadii) + [radius]
    {
      availableRadii := availableRadii + [radius];
    }
  }

  /** A recycled radius is the next one handed out, and the allocator is back where it was. */
  method RecycleThenAllocate(a: RadiusAllocator, radius: real) returns (r: real)
    requires a.Valid()
    modifies a
    ensures a.Valid() && r == radius
    ensures a.availableRadii == old(a.availableRadii) && a.nextRadiusIndex == old(a.nextRadiusIndex)
  {
    a.RecycleRadius(radius);
    r := a.GetNextRadius();
  }
}

/** Resource vectors (internal/alloc/resource.go).

    A vector maps a resource name to an exact quantity, counted in a fixed small unit.  An absent
    name and a zero quantity are different entries, and only `Equivalent` identifies them.  The
    nil vector of the source is the empty map here: every operation below gives both the same
    entries. */
module Resources {
  type ResourceName = string
  type Resources = map<ResourceName, int>

  const PODS: ResourceName := "pods"

  function Qty(r: Resources, name: ResourceName): int {
    if name in r then r[name] else 0
  }

  predicate NonNegative(r: Resources) {
    forall name :: name in r ==> r[name] >= 0
  }

  /** What adding `other` in place leaves behind. */
  function Sum(r: Resources, other: Resources): Resources {
    map name | name in r.Keys + other.Keys :: Qty(r, name) + Qty(other, name)
  }

  /** What subtracting `other` in place leaves behind.  A name that the receiver does not hold is
      stored with the amount un-negated. */
  function Difference(r: Resources, other: Resources): Resources {
    map name | name in r.Keys + other.Keys ::
      if name !in other then r[name] else if name in r then r[name] - other[name] else other[name]
  }

  /** A vector that is changed in place. */
  class Vector {
    ghost const owner: string  // the queue whose usage it holds
    var entries: Resources

    constructor (entries: Resources, ghost owner: string)
      ensures this.entries == entries && this.owner == owner
    {
      this.entries, this.owner := entries, owner;
    }

    /** Adds entry by entry, in whatever order the map is iterated. */
    method Add(other: Resources)
      modifies this
      ensures entries == Sum(old(entries), other)
    {
      var todo := other.Keys;
      while todo != {}
        invariant todo <= other.Keys
        invariant entries.Keys == old(entries).Keys + (other.Keys - todo)
        invariant forall name :: name in entries ==>
          entries[name] == Qty(old(entries), name) + if name in todo then 0 else Qty(other, name)
        decreases todo
      {
        var name :| name in todo;
        if name in entries {
          entries := entries[name := entries[name] + other[name]];
        } else {
          entries := entries[name := other[name]];
        }
        todo := todo - {name};
      }
    }

    /** Subtracts entry by entry, in whatever order the map is iterated. */
    method Sub(other: Resources)
      modifies this
      ensures entries == Difference(old(entries), other)
    {
      var todo := other.Keys;
      while todo != {}
        invariant todo <= other.Keys
        invariant entries.Keys == old(entries).Keys + (other.Keys - todo)
        invariant forall name :: name in entries ==>
          entries[name] == if name in todo then old(entries)[name] else Difference(old(entries), other)[name]
        decreases todo
      {
        var name :| name in todo;
        if name in entries {
          entries := entries[name := entries[name] - other[name]];
        } else {
          entries := entries[name := other[name]];
        }
        todo := todo - {name};
      }
    }

    /** Adds to a copy. */
    method Plus(other: Resources) returns (sum: Vector)
      ensures fresh(sum) && sum.entries == Sum(entries, other)
    {
      sum := new Vector(entries, owner);
      sum.Add(other);
    }
  }

  predicate AnyGreaterIntersecting(r: Resources, other: Resources) {
    exists name :: name in r && name in other && r[name] > other[name]
  }

  predicate Equivalent(r: Resources, other: Resources) {
    forall name :: name in r.Keys + other.Keys ==> Qty(r, name) == Qty(other, name)
  }

  /** The admission test of a queue: would `request` on top of `used` exceed a limit? */
  predicate OverMax(used: Resources, request: Resources, max: Resources) {
    AnyGreaterIntersecting(Sum(used, request), max)
  }

  /** Subtraction is arithmetic exactly when the receiver holds every name it loses a non-zero
      amount of. */
  lemma DifferenceIsArithmetic(r: Resources, other: Resources)
    ensures (forall name :: Qty(Difference(r, other), name) == Qty(r, name) - Qty(other, name))
       <==> (forall name :: name in other && name !in r ==> other[name] == 0)
  {
    if forall name :: Qty(Difference(r, other), name) == Qty(r, name) - Qty(other, name) {
      forall name | name in other && name !in r
        ensures other[name] == 0
      {
        assert Qty(Difference(r, other), name) == other[name];
      }
    }
  }

  /** Adding and then subtracting one vector leads back to the start, up to names held at zero,
      and the sum never takes the un-negated branch. */
  lemma AddThenSubtract(r: Resources, other: Resources)
    ensures Equivalent(Difference(Sum(r, other), other), r)
    ensures Difference(Sum(r, other), other) == r <==> other.Keys <= r.Keys
  {
  }

  /** With non-negative limits the test reads only quantities, so an absent name counts as zero. */
  lemma OverMaxReadsQuantities(used: Resources, request: Resources, max: Resources)
    requires NonNegative(max)
    ensures OverMax(used, request, max)
       <==> exists name :: name in max && Qty(used, name) + Qty(request, name) > max[name]
  {
  }

  ghost predicate OverMaxRespectsEquivalence(max: Resources) {
    forall used, used', request :: Equivalent(used, used') ==>
      OverMax(used, request, max) == OverMax(used', request, max)
  }

  /** The admission test depends on the `Equivalent` class of the usage exactly when no limit is
      negative: against a negative limit, a name held at zero is over and an absent one is not. */
  lemma EquivalenceIsSoundIff(max: Resources)
    ensures OverMaxRespectsEquivalence(max) <==> NonNegative(max)
  {
    if NonNegative(max) {
      forall used, used', request | Equivalent(used, used')
        ensures OverMax(used, request, max) == OverMax(used', request, max)
      {
        OverMaxReadsQuantities(used, request, max);
        OverMaxReadsQuantities(used', request, max);
        EquivalentQuantities(used, used');
      }
    } else {
      var name :| name in max && max[name] < 0;
      var held: Resources := map[name := 0];
      assert Equivalent(held, map[]);
      assert name in Sum(held, map[]) && Sum(held, map[])[name] > max[name];
      assert Sum(map[], map[]) == map[];
      assert OverMax(held, map[], max) && !OverMax(map[], map[], max);
    }
  }

  lemma EquivalentQuantities(r: Resources, other: Resources)
    requires Equivalent(r, other)
    ensures forall name :: Qty(r, name) == Qty(other, name)
  {
  }
}

/**
 * Process-wide id maps (`GameObject.idMap`, `Force.idMap`). Each map is an
 * object the constructors register into; the random retry loop that picks an
 * id is modelled as a choice of any id in [1, int.MaxValue) the map lacks.
 */
module Ids {

  /** `int.MaxValue`; `Random.Next(1, int.MaxValue)` draws from [1, MaxId). */
  const MaxId: int := 0x7FFF_FFFF

  /** The integers of [lo, hi). */
  function Range(lo: int, hi: int): (r: set<int>)
    ensures forall i :: i in r <==> lo <= i < hi
    ensures lo <= hi ==> |r| == hi - lo
    decreases hi - lo
  {
    if lo >= hi then {} else Range(lo, hi - 1) + {hi - 1}
  }

  /** A subset is no larger than its superset. */
  lemma {:induction false} SubsetSize<T>(a: set<T>, b: set<T>)
    requires a <= b
    ensures |a| <= |b|
    decreases a
  {
    if a != {} {
      var x :| x in a;
      SubsetSize(a - {x}, b - {x});
    }
  }

  /** While fewer than MaxId - 1 ids are taken, some drawable id is free. */
  lemma FreeIdExists(used: set<int>)
    requires |used| < MaxId - 1
    ensures exists id :: 1 <= id < MaxId && id !in used
  {
    if forall id :: 1 <= id < MaxId ==> id in used {
      SubsetSize(Range(1, MaxId), used);
      assert false;
    }
  }

  /** `arrangeID`'s loop: keep drawing until the id is not in the map. */
  method FreshId(used: set<int>) returns (id: int)
    requires |used| < MaxId - 1
    ensures 1 <= id < MaxId && id !in used
  {
    FreeIdExists(used);
    id :| 1 <= id < MaxId && id !in used;
  }

  /** A static `Dictionary<int, T> idMap`. */
  class Registry<T> {
    var idMap: map<int, T>

    constructor ()
      ensures idMap == map[]
    {
      idMap := map[];
    }

    /** Another id can still be drawn (the retry loop would spin forever otherwise). */
    predicate HasRoom()
      reads this
    {
      |idMap.Keys| < MaxId - 1
    }

    /** Draw an id absent from the map and map it to `x` (`idMap.Add(id, this)`). */
    method Register(x: T) returns (id: int)
      requires HasRoom()
      modifies this
      ensures 1 <= id < MaxId && id !in old(idMap)
      ensures idMap == old(idMap)[id := x]
    {
      id := FreshId(idMap.Keys);
      idMap := idMap[id := x];
    }
  }
}

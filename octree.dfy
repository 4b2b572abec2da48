/**
 * The broad-phase octree (physics/Octree.cs). A node keeps the bodies that
 * straddle one of its midpoints; once it holds more than `MaxObjects` bodies
 * and sits above `MaxLevels`, it splits into 8 half-size children and pushes
 * every body that fits one octant down into that child.
 *
 * The tree stores, for each body, its id with the position (transform
 * M41..M43) and size (scale) that `PosX()`…`SizeZ()` read; the bodies are
 * taken not to move while the tree is in use.
 */
module Octrees {
  import opened Numerics

  const MaxObjects: int := 8
  const MaxLevels: int := 5

  datatype BoundingBox = BoundingBox(min: Vec3, max: Vec3)

  /** What the tree reads off a GameObject: its id, position and size. */
  datatype Body = Body(id: int, pos: Vec3, size: Vec3)

  // ---------------------------------------------------------------------
  // Octants

  function Mid(lo: real, hi: real): real { lo + (hi - lo) / 2.0 }

  /** The body lies wholly below the midpoint on one axis (both ends compared). */
  predicate Below(pos: real, size: real, mid: real) { pos < mid && pos + size < mid }

  /** The body starts above the midpoint on one axis (only the position is compared). */
  predicate Above(pos: real, mid: real) { pos > mid }

  /**
   * `GetIndex`: the octant that holds the body, or -1 when the body is not
   * clearly on one side of a midpoint. Bit 0 is "above on X", bit 1 "above on
   * Y" (the source's bottom quadrant), bit 2 "above on Z" (its back quadrant).
   * The source's nested decision is written here as one side per axis;
   * `GetIndexSpec` states the octant each combination of sides gives.
   */
  function GetIndex(bounds: BoundingBox, b: Body): (r: int)
    ensures -1 <= r < 8
  {
    var sx := Side(b.pos.x, b.size.x, Mid(bounds.min.x, bounds.max.x));
    var sy := Side(b.pos.y, b.size.y, Mid(bounds.min.y, bounds.max.y));
    var sz := Side(b.pos.z, b.size.z, Mid(bounds.min.z, bounds.max.z));
    if sx < 0 || sy < 0 || sz < 0 then -1 else sx + 2 * sy + 4 * sz
  }

  /** 0 below the midpoint, 1 above it, -1 across it. */
  function Side(pos: real, size: real, mid: real): int
  {
    if Below(pos, size, mid) then 0 else if Above(pos, mid) then 1 else -1
  }

  /** Bit `k` (0, 1 or 2) of an octant number. */
  predicate Bit(i: int, k: nat) requires 0 <= i < 8 && k < 3
  {
    if k == 0 then i % 2 == 1 else if k == 1 then (i / 2) % 2 == 1 else i / 4 == 1
  }

  /** The per-axis side test `GetIndex` asks for: below when the bit is clear, above when it is set. */
  predicate OnSide(set_: bool, pos: real, size: real, mid: real)
  {
    if set_ then Above(pos, mid) else Below(pos, size, mid)
  }

  /**
   * `GetIndex` returns an octant or -1; an octant means the body is on that
   * octant's side of all three midpoints, and -1 means it is on no octant's
   * side of all three.
   */
  lemma GetIndexSpec(bounds: BoundingBox, b: Body)
    ensures var r := GetIndex(bounds, b);
      && -1 <= r < 8
      && (r >= 0 ==>
            && OnSide(Bit(r, 0), b.pos.x, b.size.x, Mid(bounds.min.x, bounds.max.x))
            && OnSide(Bit(r, 1), b.pos.y, b.size.y, Mid(bounds.min.y, bounds.max.y))
            && OnSide(Bit(r, 2), b.pos.z, b.size.z, Mid(bounds.min.z, bounds.max.z)))
      && (r == -1 <==>
            forall i :: 0 <= i < 8 ==>
              !(OnSide(Bit(i, 0), b.pos.x, b.size.x, Mid(bounds.min.x, bounds.max.x))
                && OnSide(Bit(i, 1), b.pos.y, b.size.y, Mid(bounds.min.y, bounds.max.y))
                && OnSide(Bit(i, 2), b.pos.z, b.size.z, Mid(bounds.min.z, bounds.max.z))))
  {
    var mx, my, mz := Mid(bounds.min.x, bounds.max.x), Mid(bounds.min.y, bounds.max.y), Mid(bounds.min.z, bounds.max.z);
    assert Bit(0, 0) == false && Bit(0, 1) == false && Bit(0, 2) == false;
    assert Bit(1, 0) == true && Bit(1, 1) == false && Bit(1, 2) == false;
    assert Bit(2, 0) == false && Bit(2, 1) == true && Bit(2, 2) == false;
    assert Bit(3, 0) == true && Bit(3, 1) == true && Bit(3, 2) == false;
    assert Bit(4, 0) == false && Bit(4, 1) == false && Bit(4, 2) == true;
    assert Bit(5, 0) == true && Bit(5, 1) == false && Bit(5, 2) == true;
    assert Bit(6, 0) == false && Bit(6, 1) == true && Bit(6, 2) == true;
    assert Bit(7, 0) == true && Bit(7, 1) == true && Bit(7, 2) == true;
  }

  /** `Split`'s eight boxes, as the source writes them out one by one. */
  function ChildBounds(bounds: BoundingBox, i: int): BoundingBox
    requires 0 <= i < 8
  {
    var subWidth := (bounds.max.x - bounds.min.x) / 2.0;
    var subHeight := (bounds.max.y - bounds.min.y) / 2.0;
    var subDepth := (bounds.max.z - bounds.min.z) / 2.0;
    var x, y, z := bounds.min.x, bounds.min.y, bounds.min.z;
    match i
    case 0 => BoundingBox(Vec3(x, y, z), Vec3(x + subWidth, y + subHeight, z + subDepth))
    case 1 => BoundingBox(Vec3(x + subWidth, y, z), Vec3(x + subWidth * 2.0, y + subHeight, z + subDepth))
    case 2 => BoundingBox(Vec3(x, y + subHeight, z), Vec3(x + subWidth, y + subHeight * 2.0, z + subDepth))
    case 3 => BoundingBox(Vec3(x + subWidth, y + subHeight, z), Vec3(x + subWidth * 2.0, y + subHeight * 2.0, z + subDepth))
    case 4 => BoundingBox(Vec3(x, y, z + subDepth), Vec3(x + subWidth, y + subHeight, z + subDepth * 2.0))
    case 5 => BoundingBox(Vec3(x + subWidth, y, z + subDepth), Vec3(x + subWidth * 2.0, y + subHeight, z + subDepth * 2.0))
    case 6 => BoundingBox(Vec3(x, y + subHeight, z + subDepth), Vec3(x + subWidth, y + subHeight * 2.0, z + subDepth * 2.0))
    case 7 => BoundingBox(Vec3(x + subWidth, y + subHeight, z + subDepth), Vec3(x + subWidth * 2.0, y + subHeight * 2.0, z + subDepth * 2.0))
  }

  /** Half of the extent when `set_`, nothing otherwise. */
  function Offset(set_: bool, half: real): real { if set_ then half else 0.0 }

  /**
   * Child `i` starts at the parent's min corner moved by a half extent on each
   * axis whose bit is set, and has half the parent's extent on every axis;
   * it ends at the parent's max corner on the axes whose bit is set.
   */
  lemma ChildBoundsSpec(bounds: BoundingBox, i: int)
    requires 0 <= i < 8
    ensures var c, hx, hy, hz := ChildBounds(bounds, i), (bounds.max.x - bounds.min.x) / 2.0,
                                 (bounds.max.y - bounds.min.y) / 2.0, (bounds.max.z - bounds.min.z) / 2.0;
      && c.min == Vec3(bounds.min.x + Offset(Bit(i, 0), hx), bounds.min.y + Offset(Bit(i, 1), hy),
                       bounds.min.z + Offset(Bit(i, 2), hz))
      && c.max == Vec3(c.min.x + hx, c.min.y + hy, c.min.z + hz)
      && (Bit(i, 0) ==> c.max.x == bounds.max.x) && (Bit(i, 1) ==> c.max.y == bounds.max.y)
      && (Bit(i, 2) ==> c.max.z == bounds.max.z)
  {
  }

  /**
   * The octant `GetIndex` picks is the child box on the same side of each
   * midpoint: a body below a midpoint ends before the child's max there, one
   * above it starts after the child's min.
   */
  lemma GetIndexMatchesChild(bounds: BoundingBox, b: Body)
    requires GetIndex(bounds, b) != -1
    ensures var i := GetIndex(bounds, b); var c := ChildBounds(bounds, i);
      && (if Bit(i, 0) then b.pos.x > c.min.x else b.pos.x + b.size.x < c.max.x && b.pos.x < c.max.x)
      && (if Bit(i, 1) then b.pos.y > c.min.y else b.pos.y + b.size.y < c.max.y && b.pos.y < c.max.y)
      && (if Bit(i, 2) then b.pos.z > c.min.z else b.pos.z + b.size.z < c.max.z && b.pos.z < c.max.z)
  {
    var i := GetIndex(bounds, b);
    GetIndexSpec(bounds, b);
    ChildBoundsSpec(bounds, i);
  }

  // ---------------------------------------------------------------------
  // The tree

  /**
   * A node: its depth, its box, the bodies it keeps itself (`objects`) and
   * its children. `nodes` is empty for a leaf (the source's eight null
   * slots) and holds eight subtrees after `Split`.
   */
  datatype Octree = Octree(level: int, bounds: BoundingBox, objects: seq<Body>, nodes: seq<Octree>)

  /** The source's `nodes[0] != null`. */
  predicate HasChildren(t: Octree) { |t.nodes| == 8 }

  /** Every body stored anywhere in the subtree, with multiplicity. */
  function Contents(t: Octree): multiset<Body>
    decreases t
  {
    multiset(t.objects) + ContentsOf(t.nodes)
  }

  /** The bodies stored in a list of subtrees. */
  function ContentsOf(ns: seq<Octree>): multiset<Body>
    decreases ns
  {
    if ns == [] then multiset{} else ContentsOf(ns[..|ns| - 1]) + Contents(ns[|ns| - 1])
  }

  /** Every body kept at the node itself straddles a midpoint. */
  predicate StragglersOnly(t: Octree)
  {
    forall b :: b in t.objects ==> GetIndex(t.bounds, b) == -1
  }

  /** Child `i` is one level down, has the `i`th octant box, and holds only bodies of that octant. */
  predicate ChildFits(t: Octree, i: int)
    requires 0 <= i < 8 && HasChildren(t)
  {
    && t.nodes[i].level == t.level + 1
    && t.nodes[i].bounds == ChildBounds(t.bounds, i)
    && forall b :: b in Contents(t.nodes[i]) ==> GetIndex(t.bounds, b) == i
  }

  /**
   * The tree's invariant: a leaf, or a node above `MaxLevels` with eight
   * fitting, valid children. `strict` adds that such a node keeps only
   * stragglers, which `Insert` breaks for a moment while it redistributes.
   */
  predicate Inv(t: Octree, strict: bool)
    decreases t
  {
    || t.nodes == []
    || (&& HasChildren(t) && t.level < MaxLevels && (strict ==> StragglersOnly(t))
        && forall i :: 0 <= i < 8 ==> ChildFits(t, i) && Inv(t.nodes[i], true))
  }

  predicate Valid(t: Octree) { Inv(t, true) }

  // ---------------------------------------------------------------------
  // Counting bodies

  /** Replacing one subtree by one that holds `m` more adds `m` to the list's bodies. */
  lemma {:induction false} ContentsOfUpdate(ns: seq<Octree>, k: int, c: Octree, m: multiset<Body>)
    requires 0 <= k < |ns| && Contents(c) == Contents(ns[k]) + m
    ensures ContentsOf(ns[k := c]) == ContentsOf(ns) + m
  {
    var us := ns[k := c];
    if k < |ns| - 1 {
      assert us[..|us| - 1] == ns[..|ns| - 1][k := c];
      ContentsOfUpdate(ns[..|ns| - 1], k, c, m);
    } else {
      assert us[..|us| - 1] == ns[..|ns| - 1];
    }
  }

  /** One subtree's bodies are among the list's. */
  lemma {:induction false} ContentsOfHas(ns: seq<Octree>, k: int)
    requires 0 <= k < |ns|
    ensures Contents(ns[k]) <= ContentsOf(ns)
  {
    if k < |ns| - 1 {
      ContentsOfHas(ns[..|ns| - 1], k);
    }
  }

  /** A body among the list's is in one of its subtrees. */
  lemma {:induction false} ContentsOfWhere(ns: seq<Octree>, b: Body) returns (k: int)
    requires b in ContentsOf(ns)
    ensures 0 <= k < |ns| && b in Contents(ns[k])
  {
    if b in Contents(ns[|ns| - 1]) {
      k := |ns| - 1;
    } else {
      k := ContentsOfWhere(ns[..|ns| - 1], b);
    }
  }

  /** A list of subtrees that all hold nothing holds nothing. */
  lemma {:induction false} ContentsOfEmpty(ns: seq<Octree>)
    requires forall k :: 0 <= k < |ns| ==> Contents(ns[k]) == multiset{}
    ensures ContentsOf(ns) == multiset{}
  {
    if ns != [] {
      ContentsOfEmpty(ns[..|ns| - 1]);
    }
  }

  lemma RemoveAtMultiset(s: seq<Body>, i: int)
    requires 0 <= i < |s|
    ensures multiset(s[..i] + s[i + 1..]) == multiset(s) - multiset{s[i]}
  {
    assert s == s[..i] + [s[i]] + s[i + 1..];
  }

  lemma TakeBack(own: multiset<Body>, rest: multiset<Body>, total: multiset<Body>, o: Body)
    requires o in own && own + rest == total + multiset{o}
    ensures (own - multiset{o}) + rest == total
  {
    var m := own - multiset{o};
    assert own == m + multiset{o};
    forall e
      ensures (m + rest)[e] == total[e]
    {
      assert (own + rest)[e] == (total + multiset{o})[e];
    }
  }

  // ---------------------------------------------------------------------
  // Operations

  /** `new Octree(level, bounds)`: an empty leaf. */
  function NewOctree(level: int, bounds: BoundingBox): (r: Octree)
    ensures Valid(r) && Contents(r) == multiset{} && !HasChildren(r)
    ensures r.level == level && r.bounds == bounds && r.objects == []
  {
    Octree(level, bounds, [], [])
  }

  /** `Clear`: no objects left and every child slot emptied. */
  function Clear(t: Octree): (r: Octree)
    ensures Valid(r) && Contents(r) == multiset{}
    ensures r.objects == [] && !HasChildren(r) && r.level == t.level && r.bounds == t.bounds
  {
    t.(objects := [], nodes := [])
  }

  /** `Split`: eight empty children, one per octant, one level down, written out as the source does. */
  function Split(t: Octree): (r: Octree)
    requires !HasChildren(t)
    ensures HasChildren(r) && r.level == t.level && r.bounds == t.bounds && r.objects == t.objects
    ensures forall i :: 0 <= i < 8 ==> r.nodes[i] == NewOctree(t.level + 1, ChildBounds(t.bounds, i))
  {
    t.(nodes := [NewOctree(t.level + 1, ChildBounds(t.bounds, 0)), NewOctree(t.level + 1, ChildBounds(t.bounds, 1)),
                 NewOctree(t.level + 1, ChildBounds(t.bounds, 2)), NewOctree(t.level + 1, ChildBounds(t.bounds, 3)),
                 NewOctree(t.level + 1, ChildBounds(t.bounds, 4)), NewOctree(t.level + 1, ChildBounds(t.bounds, 5)),
                 NewOctree(t.level + 1, ChildBounds(t.bounds, 6)), NewOctree(t.level + 1, ChildBounds(t.bounds, 7))])
  }

  /** Splitting a valid leaf above `MaxLevels` keeps the tree's shape and stores nothing new. */
  lemma SplitKeeps(t: Octree)
    requires Valid(t) && !HasChildren(t) && t.level < MaxLevels
    ensures Inv(Split(t), false) && Contents(Split(t)) == Contents(t)
  {
    var r := Split(t);
    forall i | 0 <= i < 8
      ensures Contents(r.nodes[i]) == multiset{} && ChildFits(r, i) && Valid(r.nodes[i])
    {
      assert r.nodes[i] == NewOctree(t.level + 1, ChildBounds(t.bounds, i));
    }
    ContentsOfEmpty(r.nodes);
  }

  /**
   * Putting a grown child `c` (the old child `k` plus `b`, whose octant is
   * `k`) in slot `k` keeps the invariant and adds `b` to the subtree.
   */
  lemma ReplaceChild(t: Octree, k: int, c: Octree, b: Body, strict: bool)
    requires Inv(t, strict) && HasChildren(t) && 0 <= k < 8 && GetIndex(t.bounds, b) == k
    requires Valid(c) && c.level == t.nodes[k].level && c.bounds == t.nodes[k].bounds
    requires Contents(c) == Contents(t.nodes[k]) + multiset{b}
    ensures Inv(t.(nodes := t.nodes[k := c]), strict)
    ensures Contents(t.(nodes := t.nodes[k := c])) == Contents(t) + multiset{b}
  {
    ContentsOfUpdate(t.nodes, k, c, multiset{b});
    ReplaceChildInv(t, k, c, b, strict);
  }

  /** The invariant half of `ReplaceChild`. */
  lemma ReplaceChildInv(t: Octree, k: int, c: Octree, b: Body, strict: bool)
    requires Inv(t, strict) && HasChildren(t) && 0 <= k < 8 && GetIndex(t.bounds, b) == k
    requires Valid(c) && c.level == t.nodes[k].level && c.bounds == t.nodes[k].bounds
    requires Contents(c) == Contents(t.nodes[k]) + multiset{b}
    ensures Inv(t.(nodes := t.nodes[k := c]), strict)
  {
    var r := t.(nodes := t.nodes[k := c]);
    forall i | 0 <= i < 8
      ensures ChildFits(r, i) && Inv(r.nodes[i], true)
    {
      SlotFits(t, k, c, b, i);
    }
    assert strict ==> StragglersOnly(r) by {
      assert r.objects == t.objects && r.bounds == t.bounds;
    }
  }

  /** Slot `i` still fits after slot `k` took the grown child `c`. */
  lemma SlotFits(t: Octree, k: int, c: Octree, b: Body, i: int)
    requires HasChildren(t) && 0 <= k < 8 && 0 <= i < 8 && ChildFits(t, i) && Valid(t.nodes[i])
    requires GetIndex(t.bounds, b) == k && Valid(c) && c.level == t.nodes[k].level && c.bounds == t.nodes[k].bounds
    requires Contents(c) == Contents(t.nodes[k]) + multiset{b}
    ensures ChildFits(t.(nodes := t.nodes[k := c]), i) && Valid(t.(nodes := t.nodes[k := c]).nodes[i])
  {
    if i == k {
      forall o | o in Contents(c)
        ensures GetIndex(t.bounds, o) == k
      {
        if o != b {
          assert o in Contents(t.nodes[k]);
        }
      }
    }
  }

  /**
   * One step of the redistribution loop: body `i` of `x` (octant `k`) leaves
   * the node's list and its grown child `c` takes slot `k`; the subtree
   * keeps the same bodies.
   */
  lemma MoveDown(x: Octree, i: int, k: int, c: Octree)
    requires Inv(x, false) && HasChildren(x) && 0 <= i < |x.objects| && 0 <= k < 8
    requires GetIndex(x.bounds, x.objects[i]) == k
    requires Valid(c) && c.level == x.nodes[k].level && c.bounds == x.nodes[k].bounds
    requires Contents(c) == Contents(x.nodes[k]) + multiset{x.objects[i]}
    ensures var y := x.(objects := x.objects[..i] + x.objects[i + 1..], nodes := x.nodes[k := c]);
      Inv(y, false) && HasChildren(y) && Contents(y) == Contents(x)
  {
    var o := x.objects[i];
    var grown := x.(nodes := x.nodes[k := c]);
    ReplaceChild(x, k, c, o, false);
    var rest := x.objects[..i] + x.objects[i + 1..];
    RemoveAtMultiset(x.objects, i);
    ObjectsAside(grown, rest);
    TakeBack(multiset(x.objects), ContentsOf(grown.nodes), Contents(x), o);
  }

  /** `MoveDown`, together with the stragglers already passed over, which stay in front. */
  lemma MoveDownKeepsPrefix(x: Octree, i: int, k: int, c: Octree)
    requires Inv(x, false) && HasChildren(x) && 0 <= i < |x.objects| && 0 <= k < 8
    requires GetIndex(x.bounds, x.objects[i]) == k
    requires Valid(c) && c.level == x.nodes[k].level && c.bounds == x.nodes[k].bounds
    requires Contents(c) == Contents(x.nodes[k]) + multiset{x.objects[i]}
    requires forall j :: 0 <= j < i ==> GetIndex(x.bounds, x.objects[j]) == -1
    ensures var y := x.(objects := x.objects[..i] + x.objects[i + 1..], nodes := x.nodes[k := c]);
      && Inv(y, false) && HasChildren(y) && Contents(y) == Contents(x) && i <= |y.objects|
      && forall j :: 0 <= j < i ==> GetIndex(y.bounds, y.objects[j]) == -1
  {
    MoveDown(x, i, k, c);
    var rest := x.objects[..i] + x.objects[i + 1..];
    assert forall j :: 0 <= j < i ==> rest[j] == x.objects[j];
  }

  /** The loose invariant does not depend on the node's own list. */
  lemma ObjectsAside(x: Octree, objects: seq<Body>)
    requires Inv(x, false)
    ensures Inv(x.(objects := objects), false)
  {
    var y := x.(objects := objects);
    assert HasChildren(y) ==> forall i :: 0 <= i < 8 ==> ChildFits(x, i) && ChildFits(y, i);
  }

  /** A node whose list holds only stragglers meets the strict invariant. */
  lemma Settled(x: Octree)
    requires Inv(x, false) && forall j :: 0 <= j < |x.objects| ==> GetIndex(x.bounds, x.objects[j]) == -1
    ensures Valid(x)
  {
    forall o | o in x.objects
      ensures GetIndex(x.bounds, o) == -1
    {
      var j :| 0 <= j < |x.objects| && x.objects[j] == o;
    }
  }

  /** A child of a node with children is valid, one level down, and the node is above `MaxLevels`. */
  lemma ChildOf(x: Octree, k: int)
    requires Inv(x, false) && HasChildren(x) && 0 <= k < 8
    ensures Valid(x.nodes[k]) && x.nodes[k].level == x.level + 1 && x.level < MaxLevels
  {
    assert ChildFits(x, k);
  }

  /**
   * Appending a body to the node's own list keeps the tree valid when the
   * node has no children or the body straddles a midpoint, and stores the
   * body.
   */
  lemma Appended(t: Octree, b: Body)
    requires Valid(t) && (HasChildren(t) ==> GetIndex(t.bounds, b) == -1)
    ensures Valid(t.(objects := t.objects + [b]))
    ensures Contents(t.(objects := t.objects + [b])) == Contents(t) + multiset{b}
  {
    var r := t.(objects := t.objects + [b]);
    forall i | 0 <= i < |t.nodes|
      ensures ChildFits(r, i)
    {
      assert ChildFits(t, i);
    }
  }

  /**
   * `Insert`: push the body down its octant path as far as the split
   * nodes go; at the node where it stays, split once the node holds more
   * than `MaxObjects` bodies and is above `MaxLevels`, and move every body
   * that fits an octant into that child. The whole subtree gains exactly
   * `b`, and the tree stays valid.
   */
  method Insert(t: Octree, b: Body) returns (r: Octree)
    requires Valid(t)
    ensures Valid(r) && r.level == t.level && r.bounds == t.bounds
    ensures Contents(r) == Contents(t) + multiset{b}
    decreases MaxLevels - t.level, 1
  {
    if HasChildren(t) {
      var index := GetIndex(t.bounds, b);
      if index != -1 {
        ChildOf(t, index);
        var c := Insert(t.nodes[index], b);
        ReplaceChild(t, index, c, b, true);
        return t.(nodes := t.nodes[index := c]);
      }
    }

    r := t.(objects := t.objects + [b]);
    Appended(t, b);
    if |r.objects| > MaxObjects && t.level < MaxLevels {
      if !HasChildren(r) {
        SplitKeeps(r);
        r := Split(r);
      }
      r := Redistribute(r);
    }
  }

  /**
   * The redistribution loop of `Insert`: every body of the node's list
   * that fits an octant moves into that child, in list order; the
   * stragglers stay.
   */
  method Redistribute(r0: Octree) returns (r: Octree)
    requires Inv(r0, false) && HasChildren(r0)
    ensures Valid(r) && HasChildren(r) && r.level == r0.level && r.bounds == r0.bounds
    ensures Contents(r) == Contents(r0)
    decreases MaxLevels - r0.level, 0
  {
    r := r0;
    var i := 0;
    while i < |r.objects|
      invariant Inv(r, false) && HasChildren(r) && r.level == r0.level && r.bounds == r0.bounds
      invariant Contents(r) == Contents(r0)
      invariant 0 <= i <= |r.objects|
      invariant forall j :: 0 <= j < i ==> GetIndex(r.bounds, r.objects[j]) == -1
      decreases |r.objects| - i
    {
      var index := GetIndex(r.bounds, r.objects[i]);
      if index != -1 {
        ChildOf(r, index);
        var c := Insert(r.nodes[index], r.objects[i]);
        MoveDownKeepsPrefix(r, i, index, c);
        r := r.(objects := r.objects[..i] + r.objects[i + 1..], nodes := r.nodes[index := c]);
      } else {
        i := i + 1;
      }
    }
    Settled(r);
  }

  /**
   * `Retrieve`: the caller's list with `b`'s candidates appended — the
   * child's answer when the node has children and `b` fits an octant,
   * then the node's own bodies.
   */
  function Retrieve(returnObjects: seq<Body>, t: Octree, b: Body): (r: seq<Body>)
    decreases t
  {
    var index := GetIndex(t.bounds, b);
    if index != -1 && HasChildren(t) then
      Retrieve(returnObjects, t.nodes[index], b) + t.objects
    else
      returnObjects + t.objects
  }

  /** What `Retrieve` appends does not depend on what the caller's list held. */
  lemma {:induction false} RetrieveAppends(returnObjects: seq<Body>, t: Octree, b: Body)
    ensures Retrieve(returnObjects, t, b) == returnObjects + Retrieve([], t, b)
    decreases t
  {
    var index := GetIndex(t.bounds, b);
    if index != -1 && HasChildren(t) {
      var down := Retrieve([], t.nodes[index], b);
      RetrieveAppends(returnObjects, t.nodes[index], b);
      assert (returnObjects + down) + t.objects == returnObjects + (down + t.objects);
    }
  }

  /** Every candidate `Retrieve` reports is stored in the tree, no more often than it is stored. */
  lemma {:induction false} CandidatesStored(t: Octree, b: Body)
    ensures multiset(Retrieve([], t, b)) <= Contents(t)
    decreases t
  {
    var index := GetIndex(t.bounds, b);
    if index != -1 && HasChildren(t) {
      CandidatesStored(t.nodes[index], b);
      ContentsOfHas(t.nodes, index);
    }
  }

  /** A stored body is among its own candidates: `Retrieve` walks the octant path `Insert` took. */
  lemma {:induction false} StoredIsFound(t: Octree, b: Body)
    requires Valid(t) && b in Contents(t)
    ensures b in Retrieve([], t, b)
    decreases t
  {
    if b !in t.objects {
      var k := ContentsOfWhere(t.nodes, b);
      assert ChildFits(t, k);
      StoredIsFound(t.nodes[k], b);
    }
  }

  /** Every node of the subtree sits at a level no deeper than `bound`. */
  predicate LevelsAtMost(t: Octree, bound: int)
    decreases t
  {
    t.level <= bound && forall i :: 0 <= i < |t.nodes| ==> LevelsAtMost(t.nodes[i], bound)
  }

  /** A tree whose root is at most `MaxLevels` deep never grows deeper than `MaxLevels`. */
  lemma {:induction false} DepthBound(t: Octree)
    requires Valid(t) && t.level <= MaxLevels
    ensures LevelsAtMost(t, MaxLevels)
    decreases t
  {
    forall i | 0 <= i < |t.nodes|
      ensures LevelsAtMost(t.nodes[i], MaxLevels)
    {
      assert ChildFits(t, i);
      DepthBound(t.nodes[i]);
    }
  }
}

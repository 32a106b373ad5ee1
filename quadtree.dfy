/**
 * The spatial index of src/quadtree.py: a node covers `bounds`, keeps the
 * sprites that straddle its midlines in `objects`, and once split owns four
 * children in the order NE, NW, SW, SE.
 *
 * The tree is a value; `Insert` is written as the source writes it (append,
 * split, then the while/pop redistribution loop) and returns the new tree.
 */
module QuadTrees {
  import opened Geometry

  /** What the tree stores: a sprite's identity, its rect and its `ativo` attribute, if it has one. */
  datatype Sprite = Sprite(id: nat, rect: Rect, ativo: Option<bool>)

  datatype QuadTree = QuadTree(bounds: Rect, maxObjects: int, maxLevels: int, level: int,
                               objects: seq<Sprite>, nodes: seq<QuadTree>)

  /** A fresh node, as QuadTree.__init__ builds it. */
  function Leaf(bounds: Rect, maxObjects: int, maxLevels: int, level: int): (t: QuadTree)
    ensures t.bounds == bounds && t.maxObjects == maxObjects && t.maxLevels == maxLevels && t.level == level
    ensures AllObjects(t) == [] && t.nodes == [] && Valid(t)
  {
    QuadTree(bounds, maxObjects, maxLevels, level, [], [])
  }

  function VMid(b: Rect): int { b.x + b.w / 2 }
  function HMid(b: Rect): int { b.y + b.h / 2 }

  /** Bounds of child i (0 NE, 1 NW, 2 SW, 3 SE): half the parent's size, rounded down. */
  function Quadrant(b: Rect, i: int): Rect
    requires 0 <= i < 4
  {
    var sw := b.w / 2;
    var sh := b.h / 2;
    if i == 0 then Rect(b.x + sw, b.y, sw, sh)
    else if i == 1 then Rect(b.x, b.y, sw, sh)
    else if i == 2 then Rect(b.x, b.y + sh, sw, sh)
    else Rect(b.x + sw, b.y + sh, sw, sh)
  }

  /** get_index: the quadrant of `b` that `r` fits in strictly, or -1. */
  function GetIndex(b: Rect, r: Rect): (i: int)
    ensures -1 <= i <= 3
    ensures (i == 0 || i == 3) ==> r.x > VMid(b) && r.x + r.w < b.x + b.w
    ensures (i == 1 || i == 2) ==> r.x < VMid(b) && r.x + r.w < VMid(b)
    ensures (i == 0 || i == 1) ==> r.y < HMid(b) && r.y + r.h < HMid(b)
    ensures (i == 2 || i == 3) ==> r.y > HMid(b)
  {
    var top := r.y < HMid(b) && r.y + r.h < HMid(b);
    var bottom := r.y > HMid(b);
    if r.x > VMid(b) && r.x + r.w < b.x + b.w then
      (if top then 0 else if bottom then 3 else -1)
    else if r.x < VMid(b) && r.x + r.w < VMid(b) then
      (if top then 1 else if bottom then 2 else -1)
    else -1
  }

  /** get_all_objects: the node's own objects, then each child's, in child order. */
  function AllObjects(t: QuadTree): (r: seq<Sprite>)
    ensures t.nodes == [] ==> r == t.objects
  {
    t.objects + NodesObjects(t.nodes)
  }

  /**
   * The node's own objects come first, and every child's objects are among
   * its parent's, as many times as the child holds them.
   */
  lemma AllObjectsChildren(t: QuadTree, k: int)
    requires 0 <= k < |t.nodes|
    ensures |t.objects| <= |AllObjects(t)| && AllObjects(t)[..|t.objects|] == t.objects
    ensures multiset(AllObjects(t.nodes[k])) <= multiset(AllObjects(t))
  {
    NodesObjectsContains(t.nodes, k);
  }

  lemma {:induction false} NodesObjectsContains(ns: seq<QuadTree>, k: int)
    requires 0 <= k < |ns|
    ensures multiset(AllObjects(ns[k])) <= multiset(NodesObjects(ns))
  {
    if k > 0 {
      NodesObjectsContains(ns[1..], k - 1);
      assert ns[1..][k - 1] == ns[k];
    }
  }

  function NodesObjects(ns: seq<QuadTree>): seq<Sprite>
  {
    if ns == [] then [] else AllObjects(ns[0]) + NodesObjects(ns[1..])
  }

  /** Child i is one that `split` made for `t` and holds only sprites whose index in `t` is i. */
  predicate ChildFits(t: QuadTree, i: int, c: QuadTree)
    requires 0 <= i < 4
  {
    c.bounds == Quadrant(t.bounds, i) && c.maxObjects == t.maxObjects &&
    c.maxLevels == t.maxLevels && c.level == t.level + 1 &&
    forall o :: o in AllObjects(c) ==> GetIndex(t.bounds, o.rect) == i
  }

  predicate ChildrenFit(t: QuadTree, ns: seq<QuadTree>)
  {
    |ns| == 4 && t.level < t.maxLevels &&
    ChildFits(t, 0, ns[0]) && ChildFits(t, 1, ns[1]) &&
    ChildFits(t, 2, ns[2]) && ChildFits(t, 3, ns[3])
  }

  /**
   * The shape every node keeps: no children, or the four children of
   * `split`, each valid and holding exactly the sprites of its quadrant;
   * a split node keeps only sprites that straddle its midlines.
   */
  predicate Valid(t: QuadTree)
  {
    t.nodes == [] ||
    (ChildrenFit(t, t.nodes) &&
     (forall k :: 0 <= k < |t.nodes| ==> Valid(t.nodes[k])) &&
     (forall o :: o in t.objects ==> GetIndex(t.bounds, o.rect) == -1))
  }

  predicate SameConfig(a: QuadTree, b: QuadTree)
  {
    a.bounds == b.bounds && a.maxObjects == b.maxObjects &&
    a.maxLevels == b.maxLevels && a.level == b.level
  }

  /** The condition under which insert splits a leaf after appending. */
  predicate SplitDue(t: QuadTree)
  {
    |t.objects| + 1 > t.maxObjects && t.level < t.maxLevels
  }

  /** clear: the node keeps its bounds and configuration but holds nothing and has no children. */
  function Clear(t: QuadTree): (r: QuadTree)
    ensures SameConfig(r, t) && r.nodes == [] && AllObjects(r) == []
    ensures Valid(r)
  {
    t.(objects := [], nodes := [])
  }

  /** The four empty children that split builds. */
  function SplitNodes(t: QuadTree): (ns: seq<QuadTree>)
    requires t.level < t.maxLevels
    ensures ChildrenFit(t, ns)
    ensures forall k :: 0 <= k < |ns| ==> Valid(ns[k]) && ns[k].objects == [] && ns[k].nodes == []
  {
    [Leaf(Quadrant(t.bounds, 0), t.maxObjects, t.maxLevels, t.level + 1),
     Leaf(Quadrant(t.bounds, 1), t.maxObjects, t.maxLevels, t.level + 1),
     Leaf(Quadrant(t.bounds, 2), t.maxObjects, t.maxLevels, t.level + 1),
     Leaf(Quadrant(t.bounds, 3), t.maxObjects, t.maxLevels, t.level + 1)]
  }

  /** split, on a node that has no children yet. */
  function Split(t: QuadTree): (r: QuadTree)
    requires t.nodes == [] && t.level < t.maxLevels
    ensures SameConfig(r, t) && r.objects == t.objects && ChildrenFit(r, r.nodes)
    ensures forall k :: 0 <= k < |r.nodes| ==> AllObjects(r.nodes[k]) == []
    ensures forall k :: 0 <= k < |r.nodes| ==>
      r.nodes[k].bounds.w == t.bounds.w / 2 && r.nodes[k].bounds.h == t.bounds.h / 2
    ensures forall i, j :: 0 <= i < j < |r.nodes| ==> !Overlaps(r.nodes[i].bounds, r.nodes[j].bounds)
  {
    var ns := SplitNodes(t);
    QuadrantsDisjoint(t.bounds);
    assert forall k :: 0 <= k < 4 ==> ns[k].bounds == Quadrant(t.bounds, k);
    t.(nodes := ns)
  }

  /** The four children's bounds never collide with each other. */
  lemma QuadrantsDisjoint(b: Rect)
    ensures forall i, j :: 0 <= i < j < 4 ==> !Overlaps(Quadrant(b, i), Quadrant(b, j))
  {
    forall i, j | 0 <= i < j < 4 ensures !Overlaps(Quadrant(b, i), Quadrant(b, j)) {
      var sw, sh := b.w / 2, b.h / 2;
      if sw != 0 && sh != 0 {
        assert sw < 0 ==> b.w < 0;
      }
    }
  }

  /** For even sizes the four children tile the parent exactly. */
  lemma QuadrantsTileEven(b: Rect, px: int, py: int)
    requires b.w >= 0 && b.h >= 0 && b.w % 2 == 0 && b.h % 2 == 0
    ensures ContainsPoint(b, px, py) <==>
      (ContainsPoint(Quadrant(b, 0), px, py) || ContainsPoint(Quadrant(b, 1), px, py) ||
       ContainsPoint(Quadrant(b, 2), px, py) || ContainsPoint(Quadrant(b, 3), px, py))
  {
  }

  /** For an odd width the rightmost column of the parent belongs to no child. */
  lemma QuadrantsGapOdd(b: Rect)
    requires b.w > 0 && b.h > 0 && b.w % 2 == 1
    ensures ContainsPoint(b, b.x + b.w - 1, b.y)
    ensures forall i :: 0 <= i < 4 ==> !ContainsPoint(Quadrant(b, i), b.x + b.w - 1, b.y)
  {
  }

  /** Two sprites whose rects fit different quadrants of the same bounds cannot collide. */
  lemma DifferentQuadrantsApart(b: Rect, r1: Rect, r2: Rect)
    requires r1.Positive() && r2.Positive()
    requires GetIndex(b, r1) != -1 && GetIndex(b, r2) != -1
    requires GetIndex(b, r1) != GetIndex(b, r2)
    ensures !Overlaps(r1, r2)
  {
  }

  /** Replacing one child by one that holds `extra` more adds exactly `extra` to the concatenation. */
  lemma {:induction false} NodesObjectsUpdate(ns: seq<QuadTree>, k: int, c: QuadTree, extra: multiset<Sprite>)
    requires 0 <= k < |ns|
    requires multiset(AllObjects(c)) == multiset(AllObjects(ns[k])) + extra
    ensures multiset(NodesObjects(ns[k := c])) == multiset(NodesObjects(ns)) + extra
  {
    var ms := ns[k := c];
    var cabeca, resto := multiset(AllObjects(ns[0])), multiset(NodesObjects(ns[1..]));
    assert multiset(NodesObjects(ns)) == cabeca + resto;
    if k == 0 {
      assert ms[1..] == ns[1..];
      assert multiset(NodesObjects(ms)) == multiset(AllObjects(c)) + resto;
    } else {
      assert ms[0] == ns[0];
      assert ms[1..] == ns[1..][k - 1 := c];
      assert ns[k] == ns[1..][k - 1];
      NodesObjectsUpdate(ns[1..], k - 1, c, extra);
      assert multiset(NodesObjects(ms)) == cabeca + multiset(NodesObjects(ms[1..]));
    }
  }

  lemma {:induction false} NodesObjectsEmpty(ns: seq<QuadTree>)
    requires forall k :: 0 <= k < |ns| ==> ns[k].objects == [] && ns[k].nodes == []
    ensures NodesObjects(ns) == []
  {
    if ns != [] {
      NodesObjectsEmpty(ns[1..]);
    }
  }

  /** A sprite in the children's concatenation is in some child. */
  lemma {:induction false} InSomeChild(ns: seq<QuadTree>, o: Sprite) returns (j: int)
    requires o in NodesObjects(ns)
    ensures 0 <= j < |ns| && o in AllObjects(ns[j])
  {
    if o in AllObjects(ns[0]) {
      j := 0;
    } else {
      var j' := InSomeChild(ns[1..], o);
      j := j' + 1;
    }
  }

  /** Putting one more sprite of quadrant idx into child idx keeps the children fitting. */
  lemma ReplaceChild(t: QuadTree, ns: seq<QuadTree>, idx: int, c: QuadTree, extra: Sprite)
    requires Kids(t, ns) && 0 <= idx < 4
    requires Valid(c) && SameConfig(c, ns[idx])
    requires multiset(AllObjects(c)) == multiset(AllObjects(ns[idx])) + multiset{extra}
    requires GetIndex(t.bounds, extra.rect) == idx
    ensures Kids(t, ns[idx := c])
    ensures multiset(NodesObjects(ns[idx := c])) == multiset(NodesObjects(ns)) + multiset{extra}
  {
    NodesObjectsUpdate(ns, idx, c, multiset{extra});
    forall o | o in AllObjects(c) ensures GetIndex(t.bounds, o.rect) == idx {
      assert o in multiset(AllObjects(c));
    }
    assert ChildFits(t, idx, c);
    KidsUpdate(t, ns, idx, c);
  }

  /** A fitting, valid child can take the place of any of the four. */
  lemma KidsUpdate(t: QuadTree, ns: seq<QuadTree>, idx: int, c: QuadTree)
    requires Kids(t, ns) && 0 <= idx < 4
    requires ChildFits(t, idx, c) && Valid(c)
    ensures Kids(t, ns[idx := c])
  {
    if idx == 0 {
      assert ns[idx := c] == [c, ns[1], ns[2], ns[3]];
    } else if idx == 1 {
      assert ns[idx := c] == [ns[0], c, ns[2], ns[3]];
    } else if idx == 2 {
      assert ns[idx := c] == [ns[0], ns[1], c, ns[3]];
    } else {
      assert ns[idx := c] == [ns[0], ns[1], ns[2], c];
    }
  }

  /**
   * insert, as the source writes it: descend into the child whose quadrant
   * the sprite fits, otherwise append here and, when the append takes a leaf
   * past maxObjects below maxLevels, split and redistribute. The sprite is
   * added exactly once to the tree's contents and the shape invariant is
   * kept; a split node never loses its children.
   */
  method Insert(t: QuadTree, s: Sprite) returns (r: QuadTree)
    requires Valid(t)
    ensures Valid(r) && SameConfig(r, t)
    ensures multiset(AllObjects(r)) == multiset(AllObjects(t)) + multiset{s}
    ensures t.nodes != [] ==> r.nodes != []
    ensures t.nodes != [] && GetIndex(t.bounds, s.rect) != -1 ==> r.objects == t.objects
    ensures t.nodes != [] && GetIndex(t.bounds, s.rect) == -1 ==>
      r.objects == t.objects + [s] && r.nodes == t.nodes
    ensures t.nodes == [] ==> (r.nodes != [] <==> SplitDue(t))
    ensures t.nodes == [] && !SplitDue(t) ==> r.objects == t.objects + [s] && r.nodes == []
    decreases t.maxLevels - t.level, 2
  {
    if t.nodes != [] {
      if GetIndex(t.bounds, s.rect) != -1 {
        r := InsertInChild(t, s);
        return;
      }
    }
    var objects := t.objects + [s];
    if t.nodes != [] {
      // the split condition below fails on a node that has children
      assert Kids(t, t.nodes);
      Assemble(t, objects, t.nodes);
      r := t.(objects := objects);
      assert multiset(AllObjects(r)) == multiset(objects) + multiset(NodesObjects(t.nodes));
    } else if |objects| > t.maxObjects && t.level < t.maxLevels && t.nodes == [] {
      var rest, nodes := Redistribute(t, objects);
      Assemble(t, rest, nodes);
      r := t.(objects := rest, nodes := nodes);
      assert multiset(AllObjects(r)) == multiset(rest) + multiset(NodesObjects(nodes));
      assert AllObjects(t) == t.objects;
    } else {
      r := t.(objects := objects);
      assert AllObjects(t) == t.objects && AllObjects(r) == objects;
    }
  }

  /** The split-node case of insert where the sprite fits one quadrant: it goes down into that child. */
  method InsertInChild(t: QuadTree, s: Sprite) returns (r: QuadTree)
    requires Valid(t) && t.nodes != [] && GetIndex(t.bounds, s.rect) != -1
    ensures Valid(r) && SameConfig(r, t)
    ensures multiset(AllObjects(r)) == multiset(AllObjects(t)) + multiset{s}
    ensures r.nodes != [] && r.objects == t.objects
    decreases t.maxLevels - t.level, 0
  {
    var idx := GetIndex(t.bounds, s.rect);
    assert Kids(t, t.nodes);
    var c := Insert(t.nodes[idx], s);
    ReplaceChild(t, t.nodes, idx, c, s);
    Assemble(t, t.objects, t.nodes[idx := c]);
    r := t.(nodes := t.nodes[idx := c]);
  }

  /** A node made of the four children of `split` and straddling sprites is valid and holds both. */
  lemma Assemble(t: QuadTree, objects: seq<Sprite>, ns: seq<QuadTree>)
    requires Kids(t, ns)
    requires forall o :: o in objects ==> GetIndex(t.bounds, o.rect) == -1
    ensures Valid(t.(objects := objects, nodes := ns))
    ensures AllObjects(t.(objects := objects, nodes := ns)) == objects + NodesObjects(ns)
  {
    var r := t.(objects := objects, nodes := ns);
    assert ChildFits(r, 0, ns[0]) && ChildFits(r, 1, ns[1]) && ChildFits(r, 2, ns[2]) && ChildFits(r, 3, ns[3]);
    assert forall k :: 0 <= k < |ns| ==> Valid(ns[k]) by {
      assert Valid(ns[0]) && Valid(ns[1]) && Valid(ns[2]) && Valid(ns[3]);
    }
  }

  /** The four children split made, each valid. */
  predicate Kids(t: QuadTree, ns: seq<QuadTree>)
  {
    ChildrenFit(t, ns) && Valid(ns[0]) && Valid(ns[1]) && Valid(ns[2]) && Valid(ns[3])
  }

  /** objects.pop(i) keeps the scanned prefix and removes one occurrence of objects[i]. */
  lemma PopAt(b: Rect, objects: seq<Sprite>, i: int) returns (rest: seq<Sprite>)
    requires 0 <= i < |objects|
    requires forall k :: 0 <= k < i ==> GetIndex(b, objects[k].rect) == -1
    ensures rest == objects[..i] + objects[i + 1..]
    ensures forall k :: 0 <= k < i ==> GetIndex(b, rest[k].rect) == -1
    ensures multiset(rest) + multiset{objects[i]} == multiset(objects)
  {
    rest := objects[..i] + objects[i + 1..];
    assert objects == objects[..i] + [objects[i]] + objects[i + 1..];
  }

  /**
   * The split and the while/pop loop of insert: every sprite that fits a
   * quadrant of the new children is popped from the list and inserted into
   * that child; the sprites left behind are exactly those with index -1, and
   * nothing is dropped or duplicated.
   */
  method Redistribute(t: QuadTree, objects0: seq<Sprite>) returns (objects: seq<Sprite>, nodes: seq<QuadTree>)
    requires t.level < t.maxLevels
    ensures Kids(t, nodes)
    ensures multiset(objects) + multiset(NodesObjects(nodes)) == multiset(objects0)
    ensures forall o :: o in objects ==> GetIndex(t.bounds, o.rect) == -1
    decreases t.maxLevels - t.level, 1
  {
    objects := objects0;
    nodes := SplitNodes(t);
    NodesObjectsEmpty(nodes);
    var i := 0;
    while i < |objects|
      invariant 0 <= i <= |objects|
      invariant Kids(t, nodes)
      invariant multiset(objects) + multiset(NodesObjects(nodes)) == multiset(objects0)
      invariant forall k :: 0 <= k < i ==> GetIndex(t.bounds, objects[k].rect) == -1
      decreases |objects| - i
    {
      if GetIndex(t.bounds, objects[i].rect) != -1 {
        ghost var rest := PopAt(t.bounds, objects, i);
        objects, nodes := MoveDown(t, objects, nodes, i);
      } else {
        i := i + 1;
      }
    }
  }

  /** One pop of the redistribution loop: objects[i] fits a quadrant, leaves the list and goes into that child. */
  method MoveDown(t: QuadTree, objects: seq<Sprite>, nodes: seq<QuadTree>, i: int)
    returns (objects': seq<Sprite>, nodes': seq<QuadTree>)
    requires t.level < t.maxLevels && Kids(t, nodes) && 0 <= i < |objects|
    requires GetIndex(t.bounds, objects[i].rect) != -1
    requires forall k :: 0 <= k < i ==> GetIndex(t.bounds, objects[k].rect) == -1
    ensures Kids(t, nodes') && objects' == objects[..i] + objects[i + 1..]
    ensures multiset(objects') + multiset(NodesObjects(nodes')) == multiset(objects) + multiset(NodesObjects(nodes))
    decreases t.maxLevels - t.level, 0
  {
    var obj := objects[i];
    var idx := GetIndex(t.bounds, obj.rect);
    var c := Insert(nodes[idx], obj);
    ReplaceChild(t, nodes, idx, c, obj);
    ghost var rest := PopAt(t.bounds, objects, i);
    objects' := objects[..i] + objects[i + 1..];
    nodes' := nodes[idx := c];
    assert multiset(objects') + multiset{obj} == multiset(objects);
  }

  /** Each child's contents are part of the children's concatenation. */
  lemma {:induction false} ChildInNodes(ns: seq<QuadTree>, k: int)
    requires 0 <= k < |ns|
    ensures multiset(AllObjects(ns[k])) <= multiset(NodesObjects(ns))
  {
    if k > 0 {
      assert ns[k] == ns[1..][k - 1];
      ChildInNodes(ns[1..], k - 1);
    }
  }

  /**
   * retrieve: the broad-phase candidates for query rect q. When q fits one
   * quadrant of a split node the result is that child's candidates followed
   * by the node's own objects; otherwise the node's own objects come first,
   * followed by every child's candidates in child order. The result is part
   * of the tree's contents and always holds the node's own objects.
   */
  function Retrieve(t: QuadTree, q: Rect): (r: seq<Sprite>)
    requires Valid(t)
    ensures multiset(r) <= multiset(AllObjects(t))
    ensures multiset(t.objects) <= multiset(r)
  {
    var idx := GetIndex(t.bounds, q);
    if t.nodes != [] && idx != -1 then
      ChildInNodes(t.nodes, idx);
      Retrieve(t.nodes[idx], q) + t.objects
    else
      t.objects + (if t.nodes != [] then RetrieveNodes(t.nodes, q) else [])
  }

  function RetrieveNodes(ns: seq<QuadTree>, q: Rect): (r: seq<Sprite>)
    requires forall k :: 0 <= k < |ns| ==> Valid(ns[k])
    ensures multiset(r) <= multiset(NodesObjects(ns))
  {
    if ns == [] then [] else Retrieve(ns[0], q) + RetrieveNodes(ns[1..], q)
  }

  /** A child's candidates are among the candidates of all the children. */
  lemma {:induction false} RetrieveChildInNodes(ns: seq<QuadTree>, q: Rect, k: int, o: Sprite)
    requires forall j :: 0 <= j < |ns| ==> Valid(ns[j])
    requires 0 <= k < |ns| && o in Retrieve(ns[k], q)
    ensures o in RetrieveNodes(ns, q)
  {
    if k > 0 {
      assert ns[k] == ns[1..][k - 1];
      RetrieveChildInNodes(ns[1..], q, k - 1, o);
    }
  }

  /** On a leaf, retrieve returns exactly the leaf's objects, whatever the query. */
  lemma RetrieveLeaf(t: QuadTree, q: Rect)
    requires Valid(t) && t.nodes == []
    ensures Retrieve(t, q) == t.objects == AllObjects(t)
  {
  }

  /**
   * When q straddles a midline of a split node, every child's candidates are
   * returned, after the node's own objects.
   */
  lemma RetrieveStraddling(t: QuadTree, q: Rect, k: int, o: Sprite)
    requires Valid(t) && t.nodes != [] && GetIndex(t.bounds, q) == -1
    requires 0 <= k < |t.nodes| && o in Retrieve(t.nodes[k], q)
    ensures o in Retrieve(t, q)
    ensures Retrieve(t, q)[..|t.objects|] == t.objects
  {
    RetrieveChildInNodes(t.nodes, q, k, o);
  }

  /**
   * No false negatives: every stored sprite whose rect collides with the
   * query is among the candidates, provided both have positive size.
   */
  lemma {:induction false} NoFalseNegatives(t: QuadTree, q: Rect, o: Sprite)
    requires Valid(t) && q.Positive() && o.rect.Positive()
    requires o in AllObjects(t) && Overlaps(o.rect, q)
    ensures o in Retrieve(t, q)
    decreases t
  {
    var idx := GetIndex(t.bounds, q);
    if o in t.objects {
      assert o in multiset(t.objects);
    } else {
      var j := InSomeChild(t.nodes, o);
      assert GetIndex(t.bounds, o.rect) == j by {
        assert ChildFits(t, j, t.nodes[j]);
      }
      NoFalseNegatives(t.nodes[j], q, o);
      if idx == -1 {
        RetrieveChildInNodes(t.nodes, q, j, o);
      } else if idx != j {
        DifferentQuadrantsApart(t.bounds, o.rect, q);
        assert false;
      }
    }
  }
}

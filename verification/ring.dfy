/**
 The `Ring` of internal/hashing/consistent.go in its own form: fields updated by loops, a binary
 search with wrap-around, each proved against module RingSpec. One call runs at a time, as the
 ring's mutex makes sure.
 */
module HashRing {
  import opened RingSpec

  class Ring {
    const layout: Layout
    var nodes: seq<Point>
    var registry: map<Point, ServerId>

    ghost predicate Valid()
      reads this
    {
      Sorted(nodes)
    }

    ghost function View(): RingState
      reads this
    {
      RingState(nodes, registry)
    }

    constructor (layout: Layout)
      ensures Valid() && View() == EMPTY && this.layout == layout
    {
      this.layout := layout;
      nodes := [];
      registry := map[];
    }

    method Add(node: ServerId) returns (added: bool)
      requires Valid()
      modifies this
      ensures Valid()
      ensures (View(), added) == RingSpec.Add(layout, old(View()), node)
    {
      if layout.PointOf(node, 0) in registry {
        return false;
      }
      ghost var points := layout.PointsOf(node);
      var i := 0;
      while i < layout.replicas
        invariant 0 <= i <= layout.replicas
        invariant nodes == old(nodes) + points[..i]
        invariant registry == Enrol(old(registry), points[..i], node)
      {
        var hashed := layout.PointOf(node, i);
        EnrolOneMore(old(registry), points, i, node);
        registry := registry[hashed := node];
        nodes := nodes + [hashed];
        i := i + 1;
      }
      assert points[..i] == points;
      SortSorts(nodes);
      nodes := Sort(nodes);
      added := true;
    }

    method Remove(node: ServerId) returns (removed: bool)
      requires Valid()
      modifies this
      ensures Valid()
      ensures (View(), removed) == RingSpec.Remove(layout, old(View()), node)
    {
      if layout.PointOf(node, 0) !in registry {
        return false;
      }
      ghost var points := layout.PointsOf(node);
      var i := 0;
      while i < layout.replicas
        invariant 0 <= i <= layout.replicas
        invariant nodes == DropEach(old(nodes), points[..i])
        invariant registry == old(registry) - PointSet(points[..i])
      {
        var hashed := layout.PointOf(node, i);
        TakeOneMore(points, i);
        registry := registry - {hashed};
        RemovePoint(hashed);
        i := i + 1;
      }
      assert points[..i] == points;
      DropEachSorted(old(nodes), points);
      removed := true;
    }

    /** The inner loop of `Remove`: shift the first occurrence of `hashed` out of `nodes`. */
    method RemovePoint(hashed: Point)
      modifies this`nodes
      ensures nodes == DropFirst(old(nodes), hashed)
    {
      var j := 0;
      while j < |nodes|
        invariant 0 <= j <= |nodes| && nodes == old(nodes)
        invariant hashed !in nodes[..j]
      {
        if nodes[j] == hashed {
          DropFirstAt(nodes, hashed, j);
          nodes := nodes[..j] + nodes[j + 1..];
          return;
        }
        j := j + 1;
      }
      DropFirstAbsent(nodes, hashed);
    }

    /** sort.Search for the first point not below the key's hash, wrapping to the first point. */
    method Get(key: string) returns (owner: ServerId)
      requires Valid()
      ensures Answers(layout, View(), key, owner)
    {
      if |nodes| == 0 {
        return "";
      }
      var hashed := layout.hash(key);
      var lo, hi := 0, |nodes|;
      while lo < hi
        invariant 0 <= lo <= hi <= |nodes|
        invariant forall n | 0 <= n < lo :: nodes[n] < hashed
        invariant forall n | hi <= n < |nodes| :: nodes[n] >= hashed
      {
        var mid := (lo + hi) / 2;
        if nodes[mid] >= hashed {
          hi := mid;
        } else {
          lo := mid + 1;
        }
      }
      var idx := if lo == |nodes| then 0 else lo;
      assert Nearest(nodes, hashed, nodes[idx]);
      owner := if nodes[idx] in registry then registry[nodes[idx]] else "";
    }
  }

  lemma TakeOneMore(points: seq<Point>, i: nat)
    requires i < |points|
    ensures points[..i + 1] == points[..i] + [points[i]] && points[..i + 1][..i] == points[..i]
    ensures PointSet(points[..i + 1]) == PointSet(points[..i]) + {points[i]}
  {
    assert points[..i + 1] == points[..i] + [points[i]];
  }

  lemma EnrolOneMore(registry: map<Point, ServerId>, points: seq<Point>, i: nat, node: ServerId)
    requires i < |points|
    ensures points[..i + 1] == points[..i] + [points[i]]
    ensures Enrol(registry, points[..i + 1], node) == Enrol(registry, points[..i], node)[points[i] := node]
  {
    TakeOneMore(points, i);
  }

  lemma {:induction false} DropFirstAt(s: seq<Point>, p: Point, j: nat)
    requires j < |s| && s[j] == p && p !in s[..j]
    ensures DropFirst(s, p) == s[..j] + s[j + 1..]
  {
    if j > 0 {
      assert s[0] in s[..j];
      assert s[1..][..j - 1] == s[1..j];
      assert forall q | q in s[1..j] :: q in s[..j];
      DropFirstAt(s[1..], p, j - 1);
    }
  }

  lemma {:induction false} DropFirstAbsent(s: seq<Point>, p: Point)
    requires p !in s
    ensures DropFirst(s, p) == s
  {
    if s != [] {
      DropFirstAbsent(s[1..], p);
    }
  }
}

/** Finite directed graphs over identifiers: reachability, acyclicity, the worklist search
    that guards a new dependency, and the fact that an acyclic selection has a first item. */
module Graph {
  import opened Models
  import opened Events

  type Edges = set<(Id, Id)>

  /** The DEPENDS_ON part of the work graph. */
  function Dependencies(edges: seq<WorkEdge>): Edges {
    set e | e in edges && e.kind.DependsOn? :: (e.source, e.target)
  }

  ghost predicate IsPath(g: Edges, p: seq<Id>) {
    |p| >= 1 && forall i :: 0 <= i < |p| - 1 ==> (p[i], p[i + 1]) in g
  }

  /** `b` can be reached from `a` in zero or more steps. */
  ghost predicate Reaches(g: Edges, a: Id, b: Id) {
    exists p :: IsPath(g, p) && p[0] == a && p[|p| - 1] == b
  }

  /** `b` can be reached from `a` in one or more steps. */
  ghost predicate ReachesLater(g: Edges, a: Id, b: Id) {
    exists z :: (a, z) in g && Reaches(g, z, b)
  }

  ghost predicate Acyclic(g: Edges) {
    forall x :: !ReachesLater(g, x, x)
  }

  lemma ReachesSelf(g: Edges, a: Id)
    ensures Reaches(g, a, a)
  {
    assert IsPath(g, [a]);
  }

  lemma Prepend(g: Edges, a: Id, b: Id, c: Id)
    requires (a, b) in g && Reaches(g, b, c)
    ensures Reaches(g, a, c)
  {
    var p :| IsPath(g, p) && p[0] == b && p[|p| - 1] == c;
    var q := [a] + p;
    assert IsPath(g, q) && q[0] == a && q[|q| - 1] == c;
  }

  lemma Tail(g: Edges, p: seq<Id>)
    requires IsPath(g, p) && |p| > 1
    ensures (p[0], p[1]) in g && IsPath(g, p[1..])
  {
    assert (p[0], p[0 + 1]) in g;
  }

  lemma {:induction false} PathTransitive(g: Edges, p: seq<Id>, c: Id)
    requires IsPath(g, p) && Reaches(g, p[|p| - 1], c)
    ensures Reaches(g, p[0], c)
    decreases |p|
  {
    if |p| > 1 {
      Tail(g, p);
      PathTransitive(g, p[1..], c);
      Prepend(g, p[0], p[1], c);
    }
  }

  lemma Transitive(g: Edges, a: Id, b: Id, c: Id)
    requires Reaches(g, a, b) && Reaches(g, b, c)
    ensures Reaches(g, a, c)
  {
    var p :| IsPath(g, p) && p[0] == a && p[|p| - 1] == b;
    PathTransitive(g, p, c);
  }

  lemma Append(g: Edges, a: Id, b: Id, c: Id)
    requires Reaches(g, a, b) && (b, c) in g
    ensures Reaches(g, a, c)
  {
    ReachesSelf(g, c);
    Prepend(g, b, c, c);
    Transitive(g, a, b, c);
  }

  lemma Monotone(g: Edges, h: Edges, a: Id, b: Id)
    requires g <= h && Reaches(g, a, b)
    ensures Reaches(h, a, b)
  {
    var p :| IsPath(g, p) && p[0] == a && p[|p| - 1] == b;
    assert IsPath(h, p);
  }

  /** A walk in the graph with a new edge either avoids it or can be cut around it. */
  lemma {:induction false} CutAtNewEdge(g: Edges, a: Id, b: Id, p: seq<Id>)
    requires IsPath(g + {(a, b)}, p)
    ensures Reaches(g, p[0], p[|p| - 1]) || (Reaches(g, p[0], a) && Reaches(g, b, p[|p| - 1]))
    decreases |p|
  {
    if |p| == 1 {
      ReachesSelf(g, p[0]);
    } else {
      var q := p[1..];
      Tail(g + {(a, b)}, p);
      CutAtNewEdge(g, a, b, q);
      if (p[0], p[1]) in g {
        if Reaches(g, q[0], q[|q| - 1]) {
          Prepend(g, p[0], p[1], p[|p| - 1]);
        } else {
          Prepend(g, p[0], p[1], a);
        }
      } else {
        ReachesSelf(g, a);
      }
    }
  }

  /** Adding an edge keeps the graph acyclic exactly when its target did not already reach its source. */
  lemma AddEdge(g: Edges, a: Id, b: Id)
    ensures Acyclic(g + {(a, b)}) <==> Acyclic(g) && !Reaches(g, b, a)
  {
    var h := g + {(a, b)};
    if Reaches(g, b, a) {
      Monotone(g, h, b, a);
      assert ReachesLater(h, a, a);
    }
    if x :| ReachesLater(g, x, x) {
      var z :| (x, z) in g && Reaches(g, z, x);
      Monotone(g, h, z, x);
      assert ReachesLater(h, x, x);
    }
    if x :| ReachesLater(h, x, x) {
      CycleUsesNewEdge(g, a, b, x);
    }
  }

  lemma CycleUsesNewEdge(g: Edges, a: Id, b: Id, x: Id)
    requires ReachesLater(g + {(a, b)}, x, x)
    ensures ReachesLater(g, x, x) || Reaches(g, b, a)
  {
    var h := g + {(a, b)};
    var z :| (x, z) in h && Reaches(h, z, x);
    var p :| IsPath(h, p) && p[0] == z && p[|p| - 1] == x;
    CutAtNewEdge(g, a, b, p);
    if (x, z) in g && !Reaches(g, z, x) {
      Prepend(g, x, z, a);
      Transitive(g, b, x, a);
    }
  }

  ghost predicate EndpointsIn(g: Edges, nodes: set<Id>) {
    forall a, b :: (a, b) in g ==> a in nodes && b in nodes
  }

  /** A walk that starts among the nodes of one part never leaves that part. */
  lemma {:induction false} PathStays(g: Edges, h: Edges, nodes: set<Id>, p: seq<Id>)
    requires EndpointsIn(g, nodes) && (forall a, b :: (a, b) in h ==> a !in nodes)
    requires IsPath(g + h, p) && p[0] in nodes
    ensures Reaches(g, p[0], p[|p| - 1])
    decreases |p|
  {
    if |p| == 1 {
      ReachesSelf(g, p[0]);
    } else {
      Tail(g + h, p);
      var q := p[1..];
      PathStays(g, h, nodes, q);
      Prepend(g, p[0], p[1], p[|p| - 1]);
    }
  }

  /** Two graphs on separate nodes are jointly acyclic exactly when each is. */
  lemma DisjointUnion(g: Edges, h: Edges, gNodes: set<Id>, hNodes: set<Id>)
    requires EndpointsIn(g, gNodes) && EndpointsIn(h, hNodes) && gNodes !! hNodes
    ensures Acyclic(g + h) <==> Acyclic(g) && Acyclic(h)
  {
    if x :| ReachesLater(g, x, x) {
      var z :| (x, z) in g && Reaches(g, z, x);
      Monotone(g, g + h, z, x);
      assert ReachesLater(g + h, x, x);
    }
    if x :| ReachesLater(h, x, x) {
      var z :| (x, z) in h && Reaches(h, z, x);
      Monotone(h, g + h, z, x);
      assert ReachesLater(g + h, x, x);
    }
    if x :| ReachesLater(g + h, x, x) {
      var z :| (x, z) in g + h && Reaches(g + h, z, x);
      var p :| IsPath(g + h, p) && p[0] == z && p[|p| - 1] == x;
      if (x, z) in g {
        PathStays(g, h, gNodes, p);
        assert ReachesLater(g, x, x);
      } else {
        assert h + g == g + h;
        PathStays(h, g, hNodes, p);
        assert ReachesLater(h, x, x);
      }
    }
  }

  /** In an acyclic graph every non-empty selection has a member with no successor in the selection. */
  lemma {:induction false} FirstItem(g: Edges, selection: set<Id>) returns (x: Id)
    requires Acyclic(g) && selection != {}
    ensures x in selection && forall y :: y in selection ==> (x, y) !in g
    decreases |selection|
  {
    x :| x in selection;
    if y :| y in selection && (x, y) in g {
      var later := set s | s in selection && ReachesLater(g, x, s);
      ReachesSelf(g, y);
      assert y in later && x !in later && later <= selection - {x};
      StrictSubset(later, selection, x);
      forall r, s | r in later && s in selection && (r, s) in g ensures s in later {
        var z :| (x, z) in g && Reaches(g, z, r);
        Append(g, z, r, s);
      }
      x := FirstItem(g, later);
    }
  }

  lemma {:induction false} SubsetSize<T>(a: set<T>, b: set<T>)
    requires a <= b
    ensures |a| <= |b|
    decreases |a|
  {
    if a != {} {
      var x :| x in a;
      SubsetSize(a - {x}, b - {x});
    }
  }

  lemma StrictSubset<T>(a: set<T>, b: set<T>, x: T)
    requires a <= b && x in b && x !in a
    ensures |a| < |b|
  {
    SubsetSize(a, b - {x});
  }

  // ---- the worklist search

  /** Dependency targets of one item, in edge order. */
  function Targets(edges: seq<WorkEdge>, source: Id): (r: seq<Id>)
    ensures forall t :: t in r <==> (source, t) in Dependencies(edges)
  {
    if edges == [] then []
    else
      var last := edges[|edges| - 1];
      var front := Targets(edges[..|edges| - 1], source);
      assert forall t :: (source, t) in Dependencies(edges) <==> (source, t) in Dependencies(edges[..|edges| - 1]) || last == WorkEdge(source, t, DependsOn)
        by { TargetsStep(edges, source); }
      if last.source == source && last.kind.DependsOn? then front + [last.target] else front
  }

  lemma TargetsStep(edges: seq<WorkEdge>, source: Id)
    requires edges != []
    ensures forall t :: (source, t) in Dependencies(edges) <==>
              (source, t) in Dependencies(edges[..|edges| - 1]) || edges[|edges| - 1] == WorkEdge(source, t, DependsOn)
  {
    assert edges == edges[..|edges| - 1] + [edges[|edges| - 1]];
    forall t ensures (source, t) in Dependencies(edges) <==> WorkEdge(source, t, DependsOn) in edges {
      InDependencies(edges, source, t);
    }
    forall t ensures (source, t) in Dependencies(edges[..|edges| - 1]) <==> WorkEdge(source, t, DependsOn) in edges[..|edges| - 1] {
      InDependencies(edges[..|edges| - 1], source, t);
    }
  }

  lemma InDependencies(edges: seq<WorkEdge>, source: Id, target: Id)
    ensures (source, target) in Dependencies(edges) <==> WorkEdge(source, target, DependsOn) in edges
  {
    if (source, target) in Dependencies(edges) {
      var e :| e in edges && e.kind.DependsOn? && (e.source, e.target) == (source, target);
      assert e == WorkEdge(source, target, DependsOn);
    }
  }

  /** Nothing outside a successor-closed set is reachable from inside it. */
  lemma {:induction false} ClosedSet(g: Edges, closed: set<Id>, p: seq<Id>)
    requires forall a, b :: (a, b) in g && a in closed ==> b in closed
    requires IsPath(g, p) && p[0] in closed
    ensures p[|p| - 1] in closed
    decreases |p|
  {
    if |p| > 1 {
      Tail(g, p);
      ClosedSet(g, closed, p[1..]);
    }
  }

  /** The loop that refuses a dependency: it answers whether `target` already reaches `source`. */
  method SearchReaches(edges: seq<WorkEdge>, source: Id, target: Id) returns (cycle: bool)
    ensures cycle <==> Reaches(Dependencies(edges), target, source)
  {
    ghost var g := Dependencies(edges);
    ghost var universe := (set e | e in edges :: e.target) + {target};
    var pending := [target];
    var visited: set<Id> := {};
    ReachesSelf(g, target);
    while pending != []
      invariant visited <= universe && forall x :: x in pending ==> x in universe
      invariant forall x :: x in pending || x in visited ==> Reaches(g, target, x)
      invariant target in visited || target in pending
      invariant source !in visited
      invariant forall a, b :: (a, b) in g && a in visited ==> b in visited || b in pending
      decreases |universe - visited|, |pending|
    {
      var current := pending[|pending| - 1];
      assert current in pending;
      var rest := pending[..|pending| - 1];
      assert forall x :: x in pending <==> x in rest || x == current;
      pending := rest;
      if current == source {
        return true;
      }
      if current !in visited {
        StrictSubset(universe - (visited + {current}), universe - visited, current);
        visited := visited + {current};
        var targets := Targets(edges, current);
        forall t | t in targets ensures t in universe && Reaches(g, target, t) {
          InDependencies(edges, current, t);
          Append(g, target, current, t);
        }
        pending := rest + targets;
      }
    }
    if Reaches(g, target, source) {
      var p :| IsPath(g, p) && p[0] == target && p[|p| - 1] == source;
      ClosedSet(g, visited, p);
    }
    return false;
  }
}

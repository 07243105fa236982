/** The ancestor graph of artifacts and the cycle check that guards it. */
module Lineage {
  type Id = nat

  /** A child and one of its parents. */
  datatype Edge = Edge(child: Id, parent: Id)

  // Ancestors

  /** A non-empty walk upwards: every step goes from a child to a parent. */
  predicate IsWalk(edges: seq<Edge>, w: seq<Id>) {
    |w| > 0 && forall i :: 0 <= i < |w| - 1 ==> Edge(w[i], w[i + 1]) in edges
  }

  /** Zero or more parent edges lead from `x` to `y`. */
  ghost predicate Reaches(edges: seq<Edge>, x: Id, y: Id) {
    exists w :: IsWalk(edges, w) && w[0] == x && w[|w| - 1] == y
  }

  /** No artifact is its own proper ancestor. */
  ghost predicate Acyclic(edges: seq<Edge>) {
    forall e :: e in edges ==> !Reaches(edges, e.parent, e.child)
  }

  lemma ReachesItself(edges: seq<Edge>, x: Id)
    ensures Reaches(edges, x, x)
  {
    assert IsWalk(edges, [x]);
  }

  lemma ReachesFurther(edges: seq<Edge>, x: Id, e: Edge)
    requires Reaches(edges, x, e.child) && e in edges
    ensures Reaches(edges, x, e.parent)
  {
    var w :| IsWalk(edges, w) && w[0] == x && w[|w| - 1] == e.child;
    assert IsWalk(edges, w + [e.parent]);
  }

  lemma ReachesOn(edges: seq<Edge>, x: Id, y: Id, z: Id)
    requires Reaches(edges, x, y) && Reaches(edges, y, z)
    ensures Reaches(edges, x, z)
  {
    var v :| IsWalk(edges, v) && v[0] == x && v[|v| - 1] == y;
    var w :| IsWalk(edges, w) && w[0] == y && w[|w| - 1] == z;
    var vw := v + w[1..];
    assert vw[|vw| - 1] == z;
    assert IsWalk(edges, vw);
  }

  /** A set that contains the start and every parent of its members contains all ancestors. */
  lemma {:induction false} WalkStaysInside(edges: seq<Edge>, s: set<Id>, w: seq<Id>)
    requires IsWalk(edges, w) && w[0] in s
    requires forall e :: e in edges && e.child in s ==> e.parent in s
    ensures w[|w| - 1] in s
  {
    if |w| > 1 {
      var rest := w[1..];
      assert Edge(w[0], w[1]) in edges;
      assert forall i :: 0 <= i < |rest| - 1 ==> Edge(rest[i], rest[i + 1]) == Edge(w[i + 1], w[i + 2]);
      WalkStaysInside(edges, s, rest);
    }
  }

  // The check

  function Nodes(edges: seq<Edge>, start: Id): set<Id> {
    {start} + (set e | e in edges :: e.parent)
  }

  function ParentsOf(parents: map<Id, set<Id>>, x: Id): set<Id> {
    if x in parents then parents[x] else {}
  }

  /** The adjacency table: for each artifact, who are its parents. */
  method BuildParents(edges: seq<Edge>) returns (parentsOf: map<Id, set<Id>>)
    ensures forall c, p :: p in ParentsOf(parentsOf, c) <==> Edge(c, p) in edges
  {
    parentsOf := map[];
    for i := 0 to |edges|
      invariant forall c, p :: p in ParentsOf(parentsOf, c) <==> Edge(c, p) in edges[..i]
    {
      var e := edges[i];
      parentsOf := parentsOf[e.child := ParentsOf(parentsOf, e.child) + {e.parent}];
      assert edges[..i + 1] == edges[..i] + [e];
    }
  }

  /** Would the edge from `child` to `parent` close a cycle? Breadth-first search upwards from
    * `parent`. An artifact can be queued more than once; it is expanded at most once. */
  method DetectCycle(child: Id, parent: Id, edges: seq<Edge>) returns (cycle: bool)
    ensures cycle <==> Reaches(edges, parent, child)
  {
    if child == parent {
      ReachesItself(edges, parent);
      return true;
    }
    var parentsOf := BuildParents(edges);
    var visited: set<Id> := {};
    var queue := [parent];
    ReachesItself(edges, parent);
    ghost var nodes := Nodes(edges, parent);
    while queue != []
      invariant parent in visited || parent in queue
      invariant child !in visited && visited <= nodes
      invariant forall x :: x in queue ==> x in nodes && Reaches(edges, parent, x)
      invariant forall e :: e in edges && e.child in visited ==> e.parent in visited || e.parent in queue
      invariant forall x :: x in visited ==> Reaches(edges, parent, x)
      decreases nodes - visited, |queue|
    {
      var current := queue[0];
      assert queue == [current] + queue[1..];
      queue := queue[1..];
      if current == child {
        return true;
      }
      if current in visited {
        continue;
      }
      visited := visited + {current};
      queue := EnqueueUnvisited(edges, parent, current, ParentsOf(parentsOf, current), visited, queue);
    }
    if Reaches(edges, parent, child) {
      var w :| IsWalk(edges, w) && w[0] == parent && w[|w| - 1] == child;
      WalkStaysInside(edges, visited, w);
    }
    cycle := false;
  }

  /** The inner loop over the parents of `current`, in whatever order. */
  method EnqueueUnvisited(
    ghost edges: seq<Edge>, ghost start: Id, ghost current: Id,
    parents: set<Id>, visited: set<Id>, queue: seq<Id>) returns (longer: seq<Id>)
    requires Reaches(edges, start, current)
    requires forall p :: p in parents <==> Edge(current, p) in edges
    requires forall x :: x in queue ==> x in Nodes(edges, start) && Reaches(edges, start, x)
    ensures forall x :: x in queue ==> x in longer
    ensures forall p :: p in parents ==> p in visited || p in longer
    ensures forall x :: x in longer ==> x in Nodes(edges, start) && Reaches(edges, start, x)
  {
    longer := queue;
    var todo := parents;
    while todo != {}
      invariant todo <= parents
      invariant forall x :: x in queue ==> x in longer
      invariant forall p :: p in parents ==> p in todo || p in visited || p in longer
      invariant forall x :: x in longer ==> x in Nodes(edges, start) && Reaches(edges, start, x)
      decreases todo
    {
      var ancestor :| ancestor in todo;
      if ancestor !in visited {
        ReachesFurther(edges, start, Edge(current, ancestor));
        longer := longer + [ancestor];
      }
      todo := todo - {ancestor};
    }
  }

  // Adding an edge

  /** A walk in the graph with one more edge either avoids that edge or can be cut at it. */
  lemma {:induction false} WalkWithEdge(edges: seq<Edge>, e: Edge, w: seq<Id>)
    requires IsWalk(edges + [e], w)
    ensures Reaches(edges, w[0], w[|w| - 1])
            || (Reaches(edges, w[0], e.child) && Reaches(edges, e.parent, w[|w| - 1]))
  {
    var x, y := w[0], w[|w| - 1];
    ReachesItself(edges, x);
    if |w| > 1 {
      var rest, step := w[1..], Edge(w[0], w[1]);
      assert step in edges + [e];
      assert forall i :: 0 <= i < |rest| - 1 ==> Edge(rest[i], rest[i + 1]) == Edge(w[i + 1], w[i + 2]);
      WalkWithEdge(edges, e, rest);
      if step in edges {
        ReachesFurther(edges, x, step);
        if Reaches(edges, w[1], y) {
          ReachesOn(edges, x, w[1], y);
        } else {
          ReachesOn(edges, x, w[1], e.child);
        }
      }
    }
  }

  lemma ReachesMore(edges: seq<Edge>, e: Edge, x: Id, y: Id)
    requires Reaches(edges, x, y)
    ensures Reaches(edges + [e], x, y)
  {
    var w :| IsWalk(edges, w) && w[0] == x && w[|w| - 1] == y;
    assert IsWalk(edges + [e], w);
  }

  /** The check is exact: a new edge keeps the graph acyclic if and only if its child is not
    * already reachable from its parent. */
  lemma AcyclicWithEdge(edges: seq<Edge>, e: Edge)
    requires Acyclic(edges)
    ensures Acyclic(edges + [e]) <==> !Reaches(edges, e.parent, e.child)
  {
    var more := edges + [e];
    assert e in more;
    if Reaches(edges, e.parent, e.child) {
      ReachesMore(edges, e, e.parent, e.child);
    } else {
      forall f | f in more ensures !Reaches(more, f.parent, f.child) {
        if Reaches(more, f.parent, f.child) {
          var w :| IsWalk(more, w) && w[0] == f.parent && w[|w| - 1] == f.child;
          WalkWithEdge(edges, e, w);
          if f in edges {
            ReachesFurther(edges, e.parent, f);
            ReachesOn(edges, e.parent, f.parent, e.child);
          }
        }
      }
    }
  }

  // The view of one workspace

  /** The edges that the check of one workspace sees. */
  function InWorkspace(edges: seq<Edge>, members: set<Id>): seq<Edge> {
    if edges == [] then []
    else InWorkspace(edges[..|edges| - 1], members)
         + (if edges[|edges| - 1].child in members then [edges[|edges| - 1]] else [])
  }

  lemma {:induction false} InWorkspaceIs(edges: seq<Edge>, members: set<Id>, e: Edge)
    ensures e in InWorkspace(edges, members) <==> e in edges && e.child in members
  {
    if edges != [] {
      InWorkspaceIs(edges[..|edges| - 1], members, e);
      assert edges == edges[..|edges| - 1] + [edges[|edges| - 1]];
    }
  }

  /** When no edge leaves a workspace, reading only its edges misses no ancestor. */
  lemma WorkspaceSeesAllAncestors(edges: seq<Edge>, members: set<Id>, x: Id, y: Id)
    requires x in members
    requires forall e :: e in edges && e.child in members ==> e.parent in members
    ensures Reaches(InWorkspace(edges, members), x, y) <==> Reaches(edges, x, y)
  {
    var seen := InWorkspace(edges, members);
    forall e ensures e in seen <==> e in edges && e.child in members {
      InWorkspaceIs(edges, members, e);
    }
    if Reaches(seen, x, y) {
      var w :| IsWalk(seen, w) && w[0] == x && w[|w| - 1] == y;
      assert IsWalk(edges, w);
    }
    if Reaches(edges, x, y) {
      var w :| IsWalk(edges, w) && w[0] == x && w[|w| - 1] == y;
      WalkIsSeen(edges, members, w);
    }
  }

  lemma {:induction false} WalkIsSeen(edges: seq<Edge>, members: set<Id>, w: seq<Id>)
    requires IsWalk(edges, w) && w[0] in members
    requires forall e :: e in edges && e.child in members ==> e.parent in members
    ensures IsWalk(InWorkspace(edges, members), w)
  {
    forall i | 0 <= i < |w| - 1 ensures Edge(w[i], w[i + 1]) in InWorkspace(edges, members) {
      assert IsWalk(edges, w[..i + 1]);
      WalkStaysInside(edges, members, w[..i + 1]);
      InWorkspaceIs(edges, members, Edge(w[i], w[i + 1]));
    }
  }

  /** Without that condition the check of one workspace is not enough: an edge that leaves
    * workspace {0} is invisible from workspace {1}, where the cycle is then closed. */
  lemma OpenWorkspacesHideCycles()
    ensures var edges, e := [Edge(0, 1)], Edge(1, 0);
            && Acyclic(edges)
            && !Reaches(InWorkspace(edges, {1}), e.parent, e.child)
            && !Acyclic(edges + [e])
  {
    var edges, e := [Edge(0, 1)], Edge(1, 0);
    var seen := InWorkspace(edges, {1});
    assert seen == [];
    if Reaches(seen, 0, 1) {
      var w :| IsWalk(seen, w) && w[0] == 0 && w[|w| - 1] == 1;
      WalkStaysInside(seen, {0}, w);
    }
    if Reaches(edges, 1, 0) {
      var w :| IsWalk(edges, w) && w[0] == 1 && w[|w| - 1] == 0;
      WalkStaysInside(edges, {1}, w);
    }
    assert Edge(0, 1) in edges + [e];
    assert IsWalk(edges + [e], [1, 0]);
  }
}

// Directed graphs of delegation edges: paths, cycles, and what one more edge does.
module DelegationGraph {
  type Agent = nat

  datatype Edge = Edge(source: Agent, target: Agent)

  ghost predicate IsPath(edges: set<Edge>, p: seq<Agent>) {
    p != [] && forall i :: 0 <= i < |p| - 1 ==> Edge(p[i], p[i + 1]) in edges
  }

  ghost predicate PathFromTo(edges: set<Edge>, p: seq<Agent>, x: Agent, y: Agent) {
    IsPath(edges, p) && p[0] == x && p[|p| - 1] == y
  }

  // y can be reached from x along zero or more edges.
  ghost predicate Reaches(edges: set<Edge>, x: Agent, y: Agent) {
    exists p :: PathFromTo(edges, p, x, y)
  }

  // No agent can be reached from itself along one or more edges.
  ghost predicate Acyclic(edges: set<Edge>) {
    forall p :: IsPath(edges, p) && |p| >= 2 ==> p[0] != p[|p| - 1]
  }

  // What is left of a path after its first step is a path to the same end.
  lemma PathTail(edges: set<Edge>, p: seq<Agent>)
    requires IsPath(edges, p) && |p| > 1
    ensures IsPath(edges, p[1..]) && p[1..][|p| - 2] == p[|p| - 1]
    ensures Edge(p[0], p[1]) in edges
  {
    var q := p[1..];
    forall i | 0 <= i < |q| - 1 ensures Edge(q[i], q[i + 1]) in edges {
      assert q[i] == p[i + 1] && q[i + 1] == p[(i + 1) + 1];
    }
    assert Edge(p[0], p[0 + 1]) in edges;
  }

  lemma PathCons(edges: set<Edge>, x: Agent, p: seq<Agent>)
    requires IsPath(edges, p) && Edge(x, p[0]) in edges
    ensures IsPath(edges, [x] + p) && ([x] + p)[|p|] == p[|p| - 1]
  {
    var c := [x] + p;
    forall i | 0 <= i < |c| - 1 ensures Edge(c[i], c[i + 1]) in edges {
      if i > 0 { assert c[i] == p[i - 1] && c[i + 1] == p[(i - 1) + 1]; }
    }
  }

  lemma ReachesSelf(edges: set<Edge>, x: Agent)
    ensures Reaches(edges, x, x)
  {
    assert PathFromTo(edges, [x], x, x);
  }

  lemma ReachesStep(edges: set<Edge>, x: Agent, y: Agent, z: Agent)
    requires Edge(x, y) in edges && Reaches(edges, y, z)
    ensures Reaches(edges, x, z)
  {
    var p :| PathFromTo(edges, p, y, z);
    PathCons(edges, x, p);
    assert PathFromTo(edges, [x] + p, x, z);
  }

  lemma ReachesOn(edges: set<Edge>, x: Agent, y: Agent, z: Agent)
    requires Reaches(edges, x, y) && Reaches(edges, y, z)
    ensures Reaches(edges, x, z)
  {
    var p :| PathFromTo(edges, p, x, y);
    var q :| PathFromTo(edges, q, y, z);
    var r := p + q[1..];
    forall i | 0 <= i < |r| - 1 ensures Edge(r[i], r[i + 1]) in edges {
      if i < |p| - 1 {
        assert r[i] == p[i] && r[i + 1] == p[i + 1];
      } else {
        assert r[i] == q[i - (|p| - 1)] && r[i + 1] == q[i - (|p| - 1) + 1];
      }
    }
    assert PathFromTo(edges, r, x, z);
  }

  // A set of agents closed under the edges is never left.
  lemma {:induction false} ClosedUnder(edges: set<Edge>, inside: set<Agent>, p: seq<Agent>)
    requires IsPath(edges, p) && p[0] in inside
    requires forall e :: e in edges && e.source in inside ==> e.target in inside
    ensures p[|p| - 1] in inside
    decreases |p|
  {
    if |p| > 1 {
      PathTail(edges, p);
      ClosedUnder(edges, inside, p[1..]);
    }
  }

  // A path through a graph with one more edge either avoids the edge, or reaches its source and
  // goes on from its target.
  lemma {:induction false} PathUsesEdge(edges: set<Edge>, e: Edge, p: seq<Agent>)
    requires IsPath(edges + {e}, p)
    ensures Reaches(edges, p[0], p[|p| - 1])
         || (Reaches(edges, p[0], e.source) && Reaches(edges, e.target, p[|p| - 1]))
    decreases |p|
  {
    if |p| == 1 {
      ReachesSelf(edges, p[0]);
    } else {
      var x, q := p[0], p[1..];
      PathTail(edges + {e}, p);
      PathUsesEdge(edges, e, q);
      if Edge(x, q[0]) in edges {
        if Reaches(edges, q[0], q[|q| - 1]) {
          ReachesStep(edges, x, q[0], q[|q| - 1]);
        } else {
          ReachesStep(edges, x, q[0], e.source);
        }
      } else {
        ReachesSelf(edges, x);
      }
    }
  }

  // One more edge keeps the graph acyclic exactly when its source is not reachable from its
  // target.
  lemma AddEdgeAcyclic(edges: set<Edge>, e: Edge)
    requires Acyclic(edges)
    ensures Acyclic(edges + {e}) <==> !Reaches(edges, e.target, e.source)
  {
    if Reaches(edges, e.target, e.source) {
      var p :| PathFromTo(edges, p, e.target, e.source);
      MoreEdges(edges, edges + {e}, p);
      PathCons(edges + {e}, e.source, p);
    } else {
      forall p | IsPath(edges + {e}, p) && |p| >= 2 ensures p[0] != p[|p| - 1] {
        if p[0] == p[|p| - 1] { CycleNeedsEdge(edges, e, p); }
      }
    }
  }

  lemma MoreEdges(edges: set<Edge>, more: set<Edge>, p: seq<Agent>)
    requires IsPath(edges, p) && edges <= more
    ensures IsPath(more, p)
  {
  }

  lemma NoCycleThrough(edges: set<Edge>, x: Agent, y: Agent)
    requires Acyclic(edges) && Edge(x, y) in edges
    ensures !Reaches(edges, y, x)
  {
    forall p: seq<Agent> ensures !PathFromTo(edges, p, y, x) {
      if PathFromTo(edges, p, y, x) { PathCons(edges, x, p); }
    }
  }

  lemma CycleNeedsEdge(edges: set<Edge>, e: Edge, p: seq<Agent>)
    requires Acyclic(edges) && IsPath(edges + {e}, p) && |p| >= 2 && p[0] == p[|p| - 1]
    ensures Reaches(edges, e.target, e.source)
  {
    var x, q := p[0], p[1..];
    PathTail(edges + {e}, p);
    PathUsesEdge(edges, e, q);
    if Edge(x, q[0]) in edges {
      NoCycleThrough(edges, x, q[0]);
      ReachesStep(edges, x, q[0], e.source);
      ReachesOn(edges, e.target, x, e.source);
    }
  }

  lemma FewerEdges(edges: set<Edge>, fewer: set<Edge>)
    requires Acyclic(edges) && fewer <= edges
    ensures Acyclic(fewer)
  {
    forall p | IsPath(fewer, p) && |p| >= 2 ensures p[0] != p[|p| - 1] {
      MoreEdges(fewer, edges, p);
    }
  }

  // In the graph without edges every path stays where it starts.
  lemma NoEdges(p: seq<Agent>)
    requires IsPath({}, p)
    ensures |p| == 1
  {
    if |p| > 1 { PathTail({}, p); }
  }

  // A path that some smaller graph does not have takes an edge that the smaller graph lacks.
  lemma {:induction false} PathTakesNewEdge(edges: set<Edge>, fewer: set<Edge>, p: seq<Agent>) returns (d: Edge)
    requires IsPath(edges, p) && !Reaches(fewer, p[0], p[|p| - 1])
    ensures d in edges && d !in fewer && Reaches(edges, p[0], d.source) && Reaches(edges, d.target, p[|p| - 1])
    decreases |p|
  {
    var x, y := p[0], p[|p| - 1];
    ReachesSelf(fewer, x);
    PathTail(edges, p);
    d := Edge(x, p[1]);
    if d !in fewer {
      ReachesSelf(edges, x);
      assert PathFromTo(edges, p[1..], p[1], y);
    } else {
      if Reaches(fewer, p[1], y) { ReachesStep(fewer, x, p[1], y); }
      var e := PathTakesNewEdge(edges, fewer, p[1..]);
      ReachesStep(edges, x, p[1], e.source);
      d := e;
    }
  }
}

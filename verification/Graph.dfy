/** Directed graphs over names, and what it means for one to be acyclic. */
module Graph {
  import opened Common

  /** Every node with the nodes its edges lead to; a node that is no key has no edges. */
  type Graph = map<Name, set<Name>>

  predicate Edge(g: Graph, a: Name, b: Name) {
    a in g && b in g[a]
  }

  /** A walk along edges, given by its nodes. */
  ghost predicate IsWalk(g: Graph, w: seq<Name>) {
    |w| > 0 && forall i :: 0 <= i < |w| - 1 ==> Edge(g, w[i], w[i + 1])
  }

  ghost predicate WalkFromTo(g: Graph, w: seq<Name>, a: Name, b: Name) {
    IsWalk(g, w) && w[0] == a && w[|w| - 1] == b
  }

  /** A walk with at least one edge that returns to where it started. */
  ghost predicate IsCycle(g: Graph, w: seq<Name>) {
    |w| >= 2 && IsWalk(g, w) && w[0] == w[|w| - 1]
  }

  ghost predicate HasCycle(g: Graph) {
    exists w: seq<Name> :: IsCycle(g, w)
  }

  /** b can be reached from a along at least one edge. */
  ghost predicate Reaches(g: Graph, a: Name, b: Name) {
    exists w: seq<Name> :: |w| >= 2 && WalkFromTo(g, w, a, b)
  }

  /** Every edge out of a node of `order` leads to a node that stands before it, or out of the graph. */
  ghost predicate EdgesPointBack(g: Graph, order: seq<Name>) {
    forall i, b :: 0 <= i < |order| && Edge(g, order[i], b) && b in g ==> b in order[..i]
  }

  lemma {:induction false} WalkConcat(g: Graph, v: seq<Name>, w: seq<Name>)
    requires IsWalk(g, v) && IsWalk(g, w) && v[|v| - 1] == w[0]
    ensures WalkFromTo(g, v + w[1..], v[0], w[|w| - 1])
  {
    var u := v + w[1..];
    forall i | 0 <= i < |u| - 1 ensures Edge(g, u[i], u[i + 1]) {
      if i >= |v| - 1 {
        assert u[i] == w[i - |v| + 1] && u[i + 1] == w[i - |v| + 2];
      }
    }
  }

  /** An edge from the end of a walk back into it closes a cycle. */
  lemma {:induction false} BackEdge(g: Graph, path: seq<Name>, n: Name)
    requires IsWalk(g, path) && n in path && Edge(g, path[|path| - 1], n)
    ensures HasCycle(g)
  {
    var i :| 0 <= i < |path| && path[i] == n;
    var w := path[i..] + [n];
    forall j | 0 <= j < |w| - 1 ensures Edge(g, w[j], w[j + 1]) {
      if j < |path| - i - 1 { assert w[j] == path[i + j] && w[j + 1] == path[i + j + 1]; }
    }
    assert IsCycle(g, w);
  }

  /** An edge at the end of a walk makes a longer walk. */
  lemma ExtendWalk(g: Graph, path: seq<Name>, n: Name)
    requires path != [] ==> IsWalk(g, path) && Edge(g, path[|path| - 1], n)
    ensures IsWalk(g, path + [n])
  {
    var w := path + [n];
    forall i | 0 <= i < |w| - 1 ensures Edge(g, w[i], w[i + 1]) {
      if i < |path| - 1 { assert w[i] == path[i] && w[i + 1] == path[i + 1]; }
    }
  }

  /** Reaching from a successor is reaching. */
  lemma ReachesStep(g: Graph, a: Name, b: Name, c: Name)
    requires Edge(g, a, b) && (b == c || Reaches(g, b, c))
    ensures Reaches(g, a, c)
  {
    if b == c {
      assert WalkFromTo(g, [a, b], a, c);
    } else {
      var w :| |w| >= 2 && WalkFromTo(g, w, b, c);
      WalkConcat(g, [a, b], w);
    }
  }

  /** Position of a node in a list that holds it. */
  ghost function IndexOf(order: seq<Name>, n: Name): (i: nat)
    requires n in order
    ensures i < |order| && order[i] == n && n !in order[..i]
  {
    if order[0] == n then 0 else
      assert n in order[1..];
      var j := IndexOf(order[1..], n);
      assert order[..j + 1] == [order[0]] + order[1..][..j];
      j + 1
  }

  /** a stands in the list, and b after it (for lists without repetition). */
  ghost predicate Before(order: seq<Name>, a: Name, b: Name) {
    a in order && b in order && IndexOf(order, a) < IndexOf(order, b)
  }

  lemma BeforeAppend(front: seq<Name>, x: Name, a: Name, b: Name)
    requires x !in front
    ensures Before(front + [x], a, b) <==> Before(front, a, b) || (a in front && b == x)
  {
    var order := front + [x];
    forall n | n in order ensures IndexOf(order, n) == if n in front then IndexOf(front, n) else |front| {
      var i, j := IndexOf(order, n), if n in front then IndexOf(front, n) else |front|;
      assert order[j] == n && n !in order[..j];
    }
  }

  /** In an order in which edges point back, what a node reaches stands before it. */
  lemma {:induction false} WalksPointBack(g: Graph, order: seq<Name>, w: seq<Name>)
    requires EdgesPointBack(g, order) && IsWalk(g, w) && w[0] in order && |w| >= 2
    requires forall i :: 0 <= i < |w| ==> w[i] in g
    ensures Before(order, w[|w| - 1], w[0])
    decreases |w|
  {
    var i := IndexOf(order, w[0]);
    assert Edge(g, order[i], w[1]);
    var k :| 0 <= k < i && order[k] == w[1];
    assert IndexOf(order, w[1]) <= k;
    if |w| > 2 {
      assert forall m :: 0 <= m < |w[1..]| - 1 ==> w[1..][m] == w[m + 1];
      WalksPointBack(g, order, w[1..]);
    }
  }

  /** ... so an order of all nodes rules every cycle out. */
  lemma OrderMeansAcyclic(g: Graph, order: seq<Name>)
    requires EdgesPointBack(g, order) && forall n :: n in g ==> n in order
    ensures !HasCycle(g)
  {
    if HasCycle(g) {
      var w :| IsCycle(g, w);
      assert forall i :: 0 <= i < |w| ==> w[i] in g by {
        assert Edge(g, w[0], w[1]);
        forall i | 0 <= i < |w| ensures w[i] in g {
          if i < |w| - 1 { assert Edge(g, w[i], w[i + 1]); }
        }
      }
      WalksPointBack(g, order, w);
    }
  }

  /** Part of an acyclic graph is acyclic. */
  lemma SubgraphAcyclic(g: Graph, h: Graph)
    requires !HasCycle(g) && forall a, b :: Edge(h, a, b) ==> Edge(g, a, b)
    ensures !HasCycle(h)
  {
    if HasCycle(h) {
      var w :| IsCycle(h, w);
      assert IsCycle(g, w);
    }
  }
}

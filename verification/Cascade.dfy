/** The order in which a watch trigger restarts what depends on a process: a reverse closure, then Kahn's
    algorithm with a sorted list of ready names. */
module Cascade {
  import opened Common
  import opened Graph
  import opened StringOrder
  import opened Types

  // ----- What is to be computed -----

  /** The dependency edges between replica names. */
  function ReplicaGraph(p: Processes): Graph {
    map k | k in p :: p[k].dependsOn
  }

  ghost predicate DependsOnRoot(p: Processes, root: Name, n: Name) {
    n != root && Reaches(ReplicaGraph(p), n, root)
  }

  /** A topological order of s: each name once, after the names of s it depends on. */
  ghost predicate Topological(p: Processes, s: set<Name>, order: seq<Name>)
    requires s <= p.Keys
  {
    && Distinct(order) && (forall n :: n in order <==> n in s)
    && forall i, d :: 0 <= i < |order| && d in p[order[i]].dependsOn && d in s ==> d in order[..i]
  }

  /** Name by name, order comes before other in the order of names, or they are the same. */
  ghost predicate LexLeq(order: seq<Name>, other: seq<Name>) {
    order == other
    || exists i :: 0 <= i < |order| && i < |other| && order[..i] == other[..i]
                   && order[i] != other[i] && Leq(order[i], other[i])
  }

  ghost predicate LeastTopological(p: Processes, s: set<Name>, order: seq<Name>)
    requires s <= p.Keys
  {
    Topological(p, s, order) && forall t :: Topological(p, s, t) ==> LexLeq(order, t)
  }

  lemma SamePrefix(a: seq<Name>, b: seq<Name>, n: nat)
    requires n <= |a| && n <= |b| && a[..n] == b[..n]
    ensures forall i :: 0 <= i < n ==> a[i] == b[i]
  {
    assert forall i :: 0 <= i < n ==> a[..n][i] == a[i] && b[..n][i] == b[i];
  }

  /** There is only one least order, so nothing about the course of the computation can show in it. */
  lemma LeastTopologicalUnique(p: Processes, s: set<Name>, a: seq<Name>, b: seq<Name>)
    requires s <= p.Keys && LeastTopological(p, s, a) && LeastTopological(p, s, b)
    ensures a == b
  {
    assert LexLeq(a, b) && LexLeq(b, a);
    if a != b {
      var i :| 0 <= i < |a| && i < |b| && a[..i] == b[..i] && a[i] != b[i] && Leq(a[i], b[i]);
      var j :| 0 <= j < |b| && j < |a| && b[..j] == a[..j] && b[j] != a[j] && Leq(b[j], a[j]);
      SamePrefix(a, b, i);
      SamePrefix(a, b, j);
      LeqAntisymmetric(a[i], b[i]);
    }
  }

  // ----- Kahn's invariants -----

  /** The dependencies in s of n that are not out yet. */
  function Pending(p: Processes, s: set<Name>, out: set<Name>, n: Name): set<Name>
    requires n in p
  {
    p[n].dependsOn * s - out
  }

  /** Everything output came after its dependencies and before any larger name that could have come. */
  ghost predicate Greedy(p: Processes, s: set<Name>, order: seq<Name>)
    requires s <= p.Keys && forall n :: n in order ==> n in s
  {
    forall i :: 0 <= i < |order| ==>
      var out := Elements(order[..i]);
      Pending(p, s, out, order[i]) == {}
      && forall n :: n in s && n !in out && Pending(p, s, out, n) == {} ==> Leq(order[i], n)
  }

  function Elements(order: seq<Name>): set<Name> {
    set n | n in order
  }

  ghost predicate ReadyOk(p: Processes, s: set<Name>, out: set<Name>, ready: seq<Name>)
    requires s <= p.Keys
  {
    && Sorted(ready) && Distinct(ready)
    && (forall n :: n in ready <==> n in s && n !in out && Pending(p, s, out, n) == {})
  }

  ghost predicate DegreesOk(p: Processes, s: set<Name>, out: set<Name>, inDegree: map<Name, int>)
    requires s <= p.Keys
  {
    forall n :: n in s ==> n in inDegree && inDegree[n] == |Pending(p, s, out, n)|
  }

  lemma GreedyIsTopological(p: Processes, s: set<Name>, order: seq<Name>)
    requires s <= p.Keys && Distinct(order) && (forall n :: n in order <==> n in s) && Greedy(p, s, order)
    ensures Topological(p, s, order)
  {
    forall i, d | 0 <= i < |order| && d in p[order[i]].dependsOn && d in s ensures d in order[..i] {
      assert d !in Pending(p, s, Elements(order[..i]), order[i]);
    }
  }

  /** An order built greedily comes first among all topological orders. */
  lemma {:induction false} GreedyIsLeast(p: Processes, s: set<Name>, order: seq<Name>, t: seq<Name>, m: nat)
    requires s <= p.Keys && Distinct(order) && (forall n :: n in order <==> n in s) && Greedy(p, s, order)
    requires Topological(p, s, t) && m <= |order| && m <= |t| && order[..m] == t[..m]
    ensures LexLeq(order, t)
    decreases |t| - m
  {
    if m == |t| {
      SameMembersSameLength(order, t);
    } else if m == |order| {
      SameMembersSameLength(t, order);
    } else {
      var out := Elements(order[..m]);
      assert t[m] in s && t[m] !in out && Pending(p, s, out, t[m]) == {} by {
        assert forall d :: d in p[t[m]].dependsOn && d in s ==> d in t[..m];
      }
      assert Leq(order[m], t[m]);
      if order[m] == t[m] {
        assert order[..m + 1] == order[..m] + [order[m]] && t[..m + 1] == t[..m] + [t[m]];
        GreedyIsLeast(p, s, order, t, m + 1);
      }
    }
  }

  /** A list without repetition that another such list is a prefix of, with the same members, is that list. */
  lemma SameMembersSameLength(a: seq<Name>, b: seq<Name>)
    requires |b| <= |a| && a[..|b|] == b && Distinct(a) && forall n :: n in a ==> n in b
    ensures a == b
  {
    if |b| < |a| { LongerHasMore(a, b); }
  }

  lemma LongerHasMore(a: seq<Name>, b: seq<Name>)
    requires |b| < |a| && a[..|b|] == b && Distinct(a)
    ensures a[|b|] in a && a[|b|] !in b
  {
    assert forall i :: 0 <= i < |b| ==> b[i] == a[i];
  }

  /** What is left over when nothing is ready contains a cycle. */
  lemma {:induction false} LeftoverHasCycle(p: Processes, s: set<Name>, out: set<Name>, path: seq<Name>)
    requires s <= p.Keys && forall n :: n in s && n !in out ==> Pending(p, s, out, n) != {}
    requires IsWalk(ReplicaGraph(p), path) && Distinct(path) && forall n :: n in path ==> n in s && n !in out
    ensures HasCycle(ReplicaGraph(p))
    decreases s - Elements(path)
  {
    var n := path[|path| - 1];
    assert n in path;
    var d :| d in Pending(p, s, out, n);
    if d in path {
      BackEdge(ReplicaGraph(p), path, d);
    } else {
      ExtendWalk(ReplicaGraph(p), path, d);
      assert d in s - Elements(path) && d !in s - Elements(path + [d]);
      LeftoverHasCycle(p, s, out, path + [d]);
    }
  }

  // ----- The algorithm -----

  /** For each name, the processes that depend on it; a name without any has no entry. */
  type Dependents = map<Name, seq<Name>>

  function DependentsOf(dependents: Dependents, n: Name): seq<Name> {
    if n in dependents then dependents[n] else []
  }

  ghost predicate DependentsOk(p: Processes, dependents: Dependents) {
    forall d :: Distinct(DependentsOf(dependents, d))
      && forall k :: k in DependentsOf(dependents, d) <==> k in p && d in p[k].dependsOn
  }

  /** The entries made for all dependencies of the processes `whole`, and for the dependencies `part` of name. */
  ghost predicate Listed(p: Processes, dependents: Dependents, whole: set<Name>, name: Name, part: set<Name>)
    requires whole <= p.Keys
  {
    forall d :: Distinct(DependentsOf(dependents, d))
      && forall k :: k in DependentsOf(dependents, d) <==>
                     (k in whole && d in p[k].dependsOn) || (k == name && d in part)
  }

  lemma ListOneMore(p: Processes, dependents: Dependents, whole: set<Name>, name: Name, part: set<Name>, dep: Name)
    requires whole <= p.Keys && name !in whole && dep !in part
    requires Listed(p, dependents, whole, name, part)
    ensures Listed(p, dependents[dep := DependentsOf(dependents, dep) + [name]], whole, name, part + {dep})
  {
    var after := dependents[dep := DependentsOf(dependents, dep) + [name]];
    forall d ensures DependentsOf(after, d) == DependentsOf(dependents, d) + if d == dep then [name] else [] {}
    DistinctAppend(DependentsOf(dependents, dep), name);
  }

  method ReverseAdjacency(p: Processes) returns (dependents: Dependents)
    ensures DependentsOk(p, dependents)
  {
    dependents := map[];
    var names := p.Keys;
    while names != {}
      invariant names <= p.Keys && Listed(p, dependents, p.Keys - names, "", {})
      decreases names
    {
      var name :| name in names;
      var deps := p[name].dependsOn;
      while deps != {}
        invariant deps <= p[name].dependsOn
        invariant Listed(p, dependents, p.Keys - names, name, p[name].dependsOn - deps)
        decreases deps
      {
        var dep :| dep in deps;
        ListOneMore(p, dependents, p.Keys - names, name, p[name].dependsOn - deps, dep);
        assert p[name].dependsOn - deps + {dep} == p[name].dependsOn - (deps - {dep});
        dependents := dependents[dep := DependentsOf(dependents, dep) + [name]];
        deps := deps - {dep};
      }
      names := names - {name};
    }
  }

  /** The names met so far depend on root; those whose dependents may still be missing are queued. */
  ghost predicate ClosureOk(p: Processes, root: Name, inSet: set<Name>, queue: seq<Name>) {
    && (forall n :: n in inSet ==> n in p && DependsOnRoot(p, root, n))
    && (forall n :: n in queue ==> n == root || n in inSet)
    && (forall n, k :: (n == root || n in inSet) && n !in queue && Edge(ReplicaGraph(p), k, n)
                       ==> k == root || k in inSet)
  }

  lemma Depends(p: Processes, root: Name, n: Name, k: Name)
    requires (n == root || DependsOnRoot(p, root, n)) && k in p && n in p[k].dependsOn && k != root
    ensures DependsOnRoot(p, root, k)
  {
    ReachesStep(ReplicaGraph(p), k, n, root);
  }

  lemma {:induction false} ClosureComplete(p: Processes, root: Name, inSet: set<Name>, w: seq<Name>)
    requires ClosureOk(p, root, inSet, []) && IsWalk(ReplicaGraph(p), w) && w[|w| - 1] == root
    ensures w[0] == root || w[0] in inSet
    decreases |w|
  {
    if |w| > 1 {
      assert Edge(ReplicaGraph(p), w[0], w[1]);
      assert forall i :: 0 <= i < |w| - 1 ==> w[1..][i] == w[i + 1];
      ClosureComplete(p, root, inSet, w[1..]);
    }
  }

  /** One round of the worklist: the dependents of `current` that are new join the set and the queue. */
  method AddDependents(p: Processes, dependents: Dependents, root: Name, current: Name,
                       inSet0: set<Name>, queue0: seq<Name>)
    returns (inSet: set<Name>, queue: seq<Name>)
    requires DependentsOk(p, dependents) && ClosureOk(p, root, inSet0, [current] + queue0)
    ensures ClosureOk(p, root, inSet, queue)
    ensures inSet0 <= inSet && (inSet == inSet0 ==> queue == queue0)
  {
    inSet, queue := inSet0, queue0;
    assert current in [current] + queue0;
    var found := DependentsOf(dependents, current);
    for i := 0 to |found|
      invariant inSet0 <= inSet && (inSet == inSet0 ==> queue == queue0)
      invariant forall n :: n in inSet ==> n in p && DependsOnRoot(p, root, n)
      invariant forall n :: n in queue ==> n == root || n in inSet
      invariant forall n, k :: (n == root || n in inSet) && n !in queue && Edge(ReplicaGraph(p), k, n)
                               ==> k == root || k in inSet || (n == current && k in found[i..])
    {
      var dependent := found[i];
      assert dependent in found && found[i..] == [dependent] + found[i + 1..];
      if dependent !in inSet && dependent != root {
        Depends(p, root, current, dependent);
        inSet := inSet + {dependent};
        queue := queue + [dependent];
      }
    }
  }

  method Closure(p: Processes, dependents: Dependents, root: Name) returns (inSet: set<Name>)
    requires DependentsOk(p, dependents)
    ensures inSet <= p.Keys && forall n :: n in inSet <==> DependsOnRoot(p, root, n)
  {
    inSet := {};
    var queue := [root];
    while |queue| > 0
      invariant ClosureOk(p, root, inSet, queue)
      decreases p.Keys - inSet, |queue|
    {
      ghost var inSet0 := inSet;
      var current := queue[0];
      assert queue == [current] + queue[1..];
      queue := queue[1..];
      ghost var rest := queue;
      inSet, queue := AddDependents(p, dependents, root, current, inSet, queue);
      assert inSet != inSet0 ==> exists n :: n in inSet && n !in inSet0;
    }
    forall n | DependsOnRoot(p, root, n) ensures n in inSet {
      var w :| |w| >= 2 && WalkFromTo(ReplicaGraph(p), w, n, root);
      ClosureComplete(p, root, inSet, w);
    }
  }

  method CountIn(deps: set<Name>, inSet: set<Name>) returns (count: nat)
    ensures count == |deps * inSet|
  {
    count := 0;
    var left := deps;
    ghost var counted: set<Name> := {};
    while left != {}
      invariant left <= deps && counted == (deps - left) * inSet && count == |counted|
      decreases left
    {
      var dep :| dep in left;
      left := left - {dep};
      if dep in inSet {
        count, counted := count + 1, counted + {dep};
      }
    }
    assert counted == deps * inSet;
  }

  method InDegrees(p: Processes, inSet: set<Name>) returns (inDegree: map<Name, int>)
    requires inSet <= p.Keys
    ensures DegreesOk(p, inSet, {}, inDegree)
  {
    inDegree := map[];
    var names := inSet;
    while names != {}
      invariant names <= inSet
      invariant forall n :: n in inSet && n !in names ==> n in inDegree && inDegree[n] == |Pending(p, inSet, {}, n)|
      decreases names
    {
      var name :| name in names;
      var count := CountIn(p[name].dependsOn, inSet);
      assert p[name].dependsOn * inSet == Pending(p, inSet, {}, name);
      inDegree := inDegree[name := count];
      names := names - {name};
    }
  }

  lemma ReadyTaken(p: Processes, s: set<Name>, order: seq<Name>, ready: seq<Name>)
    requires s <= p.Keys && (forall n :: n in order ==> n in s) && Distinct(order) && Greedy(p, s, order)
    requires ready != [] && ReadyOk(p, s, Elements(order), ready)
    ensures ready[0] in s && Distinct(order + [ready[0]]) && Greedy(p, s, order + [ready[0]])
    ensures Elements(order + [ready[0]]) == Elements(order) + {ready[0]}
  {
    var after := order + [ready[0]];
    assert ready[0] in ready;
    DistinctAppend(order, ready[0]);
    forall i | 0 <= i < |after| ensures
      var out := Elements(after[..i]);
      Pending(p, s, out, after[i]) == {}
      && forall n :: n in s && n !in out && Pending(p, s, out, n) == {} ==> Leq(after[i], n)
    {
      if i < |order| {
        assert after[..i] == order[..i];
      } else {
        assert after[..i] == order;
        LeqTotal(ready[0], ready[0]);
      }
    }
  }

  /** What outputting `name` does to the pending dependencies of n. */
  lemma OneLessPending(p: Processes, s: set<Name>, out: set<Name>, name: Name, n: Name)
    requires n in p && name in s && name !in out
    ensures |Pending(p, s, out + {name}, n)| == |Pending(p, s, out, n)| - if name in p[n].dependsOn then 1 else 0
  {
    if name in p[n].dependsOn {
      assert Pending(p, s, out, n) == Pending(p, s, out + {name}, n) + {name};
    } else {
      assert Pending(p, s, out, n) == Pending(p, s, out + {name}, n);
    }
  }

  /** The inner loop of Kahn's algorithm: each of the names ds in the set loses one from its count, and those
      whose count comes to zero are promoted. */
  method Promote(ds: seq<Name>, inSet: set<Name>, inDegree: map<Name, int>)
    returns (inDegree': map<Name, int>, promoted: seq<Name>)
    requires Distinct(ds) && inSet <= inDegree.Keys
    ensures inSet <= inDegree'.Keys
    ensures forall n :: n in inSet ==> inDegree'[n] == inDegree[n] - if n in ds then 1 else 0
    ensures Distinct(promoted) && forall n :: n in promoted <==> n in inSet && n in ds && inDegree'[n] == 0
  {
    inDegree', promoted := inDegree, [];
    for i := 0 to |ds|
      invariant inSet <= inDegree'.Keys && Distinct(promoted)
      invariant forall n :: n in inSet ==> inDegree'[n] == inDegree[n] - if n in ds[..i] then 1 else 0
      invariant forall n :: n in promoted <==> n in inSet && n in ds[..i] && inDegree'[n] == 0
    {
      var dependent := ds[i];
      assert dependent !in ds[..i] && ds[..i + 1] == ds[..i] + [dependent];
      if dependent in inSet {
        inDegree' := inDegree'[dependent := inDegree'[dependent] - 1];
        if inDegree'[dependent] == 0 {
          DistinctAppend(promoted, dependent);
          promoted := promoted + [dependent];
        }
      }
    }
    assert ds[..|ds|] == ds;
  }

  lemma PromotedAreReady(p: Processes, dependents: Dependents, s: set<Name>, out: set<Name>, name: Name,
                         inDegree: map<Name, int>, inDegree': map<Name, int>)
    requires s <= p.Keys && DependentsOk(p, dependents) && name in s && name !in out
    requires DegreesOk(p, s, out, inDegree) && s <= inDegree'.Keys
    requires forall n :: n in s ==> inDegree'[n] == inDegree[n] - if n in DependentsOf(dependents, name) then 1 else 0
    ensures DegreesOk(p, s, out + {name}, inDegree')
    ensures forall n :: n in s ==> (inDegree'[n] == 0 <==> Pending(p, s, out + {name}, n) == {})
  {
    forall n | n in s
      ensures inDegree'[n] == |Pending(p, s, out + {name}, n)|
    {
      OneLessPending(p, s, out, name, n);
    }
  }

  /** The ready list after taking its first name and appending the promoted ones, before it is sorted. */
  lemma NextReady(p: Processes, s: set<Name>, out: set<Name>, ready: seq<Name>, promoted: seq<Name>)
    requires s <= p.Keys && ready != [] && ReadyOk(p, s, out, ready) && Distinct(promoted)
    requires forall n :: n in out ==> n in s && Pending(p, s, out, n) == {}
    requires forall n :: n in promoted <==>
               n in s && ready[0] in p[n].dependsOn && Pending(p, s, out + {ready[0]}, n) == {}
    ensures Distinct(ready[1..] + promoted)
    ensures forall n :: n in ready[1..] + promoted
                        <==> n in s && n !in out + {ready[0]} && Pending(p, s, out + {ready[0]}, n) == {}
  {
    var name := ready[0];
    assert ready == [name] + ready[1..] && name in ready && name !in ready[1..];
    forall n | n in s && name in p[n].dependsOn ensures n !in ready && n !in out {
      assert name in Pending(p, s, out, n);
    }
    DistinctConcat(ready[1..], promoted);
    forall n | n in s && name !in p[n].dependsOn
      ensures Pending(p, s, out + {name}, n) == Pending(p, s, out, n)
    {
    }
  }

  lemma TakenOnesAreDone(p: Processes, s: set<Name>, order: seq<Name>, n: Name)
    requires s <= p.Keys && (forall n :: n in order ==> n in s) && Greedy(p, s, order) && n in order
    ensures Pending(p, s, Elements(order), n) == {}
  {
    var i :| 0 <= i < |order| && order[i] == n;
    assert Pending(p, s, Elements(order[..i]), n) == {};
  }

  ghost predicate OutputOk(p: Processes, s: set<Name>, ordered: seq<Name>)
    requires s <= p.Keys
  {
    Distinct(ordered) && (forall n :: n in ordered ==> n in s) && Greedy(p, s, ordered)
  }

  /** One round of the main loop, except that the ready list is not sorted yet. */
  lemma OutputNext(p: Processes, dependents: Dependents, s: set<Name>, ordered: seq<Name>, ready: seq<Name>,
                   inDegree: map<Name, int>, inDegree': map<Name, int>, promoted: seq<Name>)
    requires s <= p.Keys && DependentsOk(p, dependents) && OutputOk(p, s, ordered)
    requires ready != [] && ReadyOk(p, s, Elements(ordered), ready) && DegreesOk(p, s, Elements(ordered), inDegree)
    requires s <= inDegree'.Keys && Distinct(promoted)
    requires forall n :: n in s ==>
               inDegree'[n] == inDegree[n] - if n in DependentsOf(dependents, ready[0]) then 1 else 0
    requires forall n :: n in promoted <==> n in s && n in DependentsOf(dependents, ready[0]) && inDegree'[n] == 0
    ensures OutputOk(p, s, ordered + [ready[0]]) && ready[0] in s && ready[0] !in Elements(ordered)
    ensures Elements(ordered + [ready[0]]) == Elements(ordered) + {ready[0]}
    ensures DegreesOk(p, s, Elements(ordered + [ready[0]]), inDegree')
    ensures Distinct(ready[1..] + promoted)
    ensures forall n :: n in ready[1..] + promoted
                        <==> n in s && n !in Elements(ordered + [ready[0]])
                             && Pending(p, s, Elements(ordered + [ready[0]]), n) == {}
  {
    var out := Elements(ordered);
    assert ready[0] in ready;
    ReadyTaken(p, s, ordered, ready);
    forall n | n in out ensures Pending(p, s, out, n) == {} {
      TakenOnesAreDone(p, s, ordered, n);
    }
    PromotedAreReady(p, dependents, s, out, ready[0], inDegree, inDegree');
    NextReady(p, s, out, ready, promoted);
  }

  method InitiallyReady(p: Processes, inSet: set<Name>, inDegree: map<Name, int>) returns (ready: seq<Name>)
    requires inSet <= p.Keys && DegreesOk(p, inSet, {}, inDegree)
    ensures ReadyOk(p, inSet, {}, ready)
  {
    var zero := Enumerate(set n | n in inSet && inDegree[n] == 0);
    ready := SortStrings(zero);
  }

  method MergeReady(rest: seq<Name>, promoted: seq<Name>) returns (ready: seq<Name>)
    requires Sorted(rest) && Distinct(rest + promoted)
    ensures Sorted(ready) && Distinct(ready) && forall n :: n in ready <==> n in rest + promoted
  {
    ready := rest;
    if |promoted| > 0 {
      ready := SortStrings(ready + promoted);
    } else {
      assert rest + promoted == rest;
    }
  }

  ghost predicate KahnOk(p: Processes, s: set<Name>, ordered: seq<Name>, ready: seq<Name>, inDegree: map<Name, int>)
    requires s <= p.Keys
  {
    && OutputOk(p, s, ordered) && DegreesOk(p, s, Elements(ordered), inDegree)
    && ReadyOk(p, s, Elements(ordered), ready)
  }

  /** One round of the main loop: the first ready name is output. */
  method OutputFirst(p: Processes, dependents: Dependents, inSet: set<Name>, ordered: seq<Name>, ready: seq<Name>,
                     inDegree: map<Name, int>)
    returns (ordered': seq<Name>, ready': seq<Name>, inDegree': map<Name, int>)
    requires inSet <= p.Keys && DependentsOk(p, dependents) && ready != [] && KahnOk(p, inSet, ordered, ready, inDegree)
    ensures KahnOk(p, inSet, ordered', ready', inDegree')
    ensures inSet - Elements(ordered') < inSet - Elements(ordered)
  {
    hide Pending, OutputOk, Elements;
    var name := ready[0];
    var promoted;
    inDegree', promoted := Promote(DependentsOf(dependents, name), inSet, inDegree);
    OutputNext(p, dependents, inSet, ordered, ready, inDegree, inDegree', promoted);
    ready' := MergeReady(ready[1..], promoted);
    ordered' := ordered + [name];
    assert name in inSet - Elements(ordered);
  }

  /** The main loop: what it outputs is greedy, and it stops only when nothing is ready. */
  method Kahn(p: Processes, dependents: Dependents, inSet: set<Name>) returns (ordered: seq<Name>)
    requires inSet <= p.Keys && DependentsOk(p, dependents)
    ensures OutputOk(p, inSet, ordered)
    ensures forall n :: n in inSet && n !in ordered ==> Pending(p, inSet, Elements(ordered), n) != {}
  {
    var inDegree := InDegrees(p, inSet);
    ordered := [];
    assert Elements(ordered) == {} && OutputOk(p, inSet, ordered);
    var ready := InitiallyReady(p, inSet, inDegree);
    while |ready| > 0
      invariant KahnOk(p, inSet, ordered, ready, inDegree)
      decreases inSet - Elements(ordered)
    {
      ordered, ready, inDegree := OutputFirst(p, dependents, inSet, ordered, ready, inDegree);
    }
  }

  lemma CompleteOrder(p: Processes, s: set<Name>, ordered: seq<Name>)
    requires s <= p.Keys && OutputOk(p, s, ordered) && !HasCycle(ReplicaGraph(p))
    requires forall n :: n in s && n !in ordered ==> Pending(p, s, Elements(ordered), n) != {}
    ensures (forall n :: n in s ==> n in ordered) && LeastTopological(p, s, ordered)
  {
    forall n | n in s ensures n in ordered {
      if n !in ordered { LeftoverHasCycle(p, s, Elements(ordered), [n]); }
    }
    GreedyIsTopological(p, s, ordered);
    forall t | Topological(p, s, t) ensures LexLeq(ordered, t) {
      GreedyIsLeast(p, s, ordered, t, 0);
    }
  }

  lemma FirstIsMember(t: seq<Name>)
    requires t != []
    ensures t[0] in t
  {
  }

  lemma NothingToOrder(p: Processes)
    ensures LeastTopological(p, {}, [])
  {
    forall t: seq<Name> | Topological(p, {}, t) ensures LexLeq([], t) {
      if t != [] { FirstIsMember(t); }
    }
  }

  /** TransitiveDependents, up to its last step: everything that depends on root, each once; without a cycle
      in the least topological order. With one, the left-over names follow in any order. */
  method OrderDependents(p: Processes, root: Name) returns (ordered: seq<Name>, ghost inSet: set<Name>)
    ensures Distinct(ordered) && inSet <= p.Keys
    ensures forall n :: n in inSet <==> DependsOnRoot(p, root, n)
    ensures forall n :: n in ordered <==> n in inSet
    ensures !HasCycle(ReplicaGraph(p)) ==> LeastTopological(p, inSet, ordered)
  {
    var dependents := ReverseAdjacency(p);
    var closure := Closure(p, dependents, root);
    inSet := closure;
    if |closure| == 0 {
      NothingToOrder(p);
      return [], closure;
    }
    ordered := Kahn(p, dependents, closure);
    assert Distinct(ordered) && forall n :: n in ordered ==> n in inSet;
    if !HasCycle(ReplicaGraph(p)) {
      CompleteOrder(p, inSet, ordered);
    }
    hide OutputOk, LeastTopological, DependsOnRoot, DependentsOk;
    var rest := Enumerate(set n | n in closure && n !in ordered);
    DistinctConcat(ordered, rest);
    assert rest == [] || rest[0] in rest;
    assert rest == [] ==> ordered + rest == ordered;
    ordered := ordered + rest;
  }

  /** The dependency edges among the names of s. */
  function Induced(p: Processes, s: set<Name>): Graph
    requires s <= p.Keys
  {
    map n | n in s :: p[n].dependsOn
  }

  /** In an acyclic project, a walk that ends among the dependents of root stays among them. */
  lemma {:induction false} WalkOfDependents(p: Processes, root: Name, s: set<Name>, w: seq<Name>)
    requires !HasCycle(ReplicaGraph(p)) && s <= p.Keys && forall n :: n in s <==> DependsOnRoot(p, root, n)
    requires IsWalk(ReplicaGraph(p), w) && w[|w| - 1] in s
    ensures IsWalk(Induced(p, s), w) && forall i :: 0 <= i < |w| ==> w[i] in s
    decreases |w|
  {
    if |w| > 1 {
      assert Edge(ReplicaGraph(p), w[0], w[1]);
      assert forall i :: 0 <= i < |w| - 1 ==> w[1..][i] == w[i + 1];
      WalkOfDependents(p, root, s, w[1..]);
      assert w[1] == w[1..][0];
      ReachesStep(ReplicaGraph(p), w[0], w[1], root);
      if w[0] == root {
        var v :| |v| >= 2 && WalkFromTo(ReplicaGraph(p), v, root, root);
        assert IsCycle(ReplicaGraph(p), v);
      }
      forall i | 0 <= i < |w| - 1 ensures Edge(Induced(p, s), w[i], w[i + 1]) {
        assert Edge(ReplicaGraph(p), w[i], w[i + 1]);
        if i > 0 { assert w[i] == w[1..][i - 1]; }
      }
    }
  }

  /** TransitiveDependents: exactly the processes that depend on root and are not deferred, each once; in an
      acyclic project each after everything it depends on even through deferred ones, and with a result that
      nothing but the project and root determines. */
  method TransitiveDependents(p: Processes, root: Name) returns (result: seq<Name>)
    ensures Distinct(result)
    ensures forall n :: n in result <==> n in p && DependsOnRoot(p, root, n) && !p[n].disabled && !p[n].isForeground
    ensures !HasCycle(ReplicaGraph(p)) ==>
              forall a, b :: a in result && b in result && Reaches(ReplicaGraph(p), b, a) ==> Before(result, a, b)
    ensures !HasCycle(ReplicaGraph(p)) ==>
              exists s, order :: s <= p.Keys && (forall n :: n in s <==> DependsOnRoot(p, root, n))
                                 && LeastTopological(p, s, order) && result == NotDeferred(p, order)
  {
    var ordered, inSet := OrderDependents(p, root);
    result := NotDeferred(p, ordered);
    NotDeferredKeepsOrder(p, ordered);
    if !HasCycle(ReplicaGraph(p)) {
      forall a, b | a in result && b in result && Reaches(ReplicaGraph(p), b, a) ensures Before(result, a, b) {
        var w :| |w| >= 2 && WalkFromTo(ReplicaGraph(p), w, b, a);
        WalkOfDependents(p, root, inSet, w);
        WalksPointBack(Induced(p, inSet), ordered, w);
      }
    }
  }

  /** The load-time check makes the project acyclic in the sense used here, so on a project it accepted the
      "cycle" fallback never runs. */
  lemma AcceptedIsAcyclic(p: Processes)
    requires !HasCycle(DependencyGraph(p))
    ensures !HasCycle(ReplicaGraph(p))
  {
    forall a, b | Edge(ReplicaGraph(p), a, b) ensures Edge(DependencyGraph(p), a, b) {
      assert a in Resolve(p, a);
    }
    SubgraphAcyclic(DependencyGraph(p), ReplicaGraph(p));
  }
}

/** The load-time check for circular dependencies: a depth-first search with a visited and a stack mark. */
module CycleValidator {
  import opened Common
  import opened Graph
  import opened Types

  /** Process k, explored for node a, names x as a dependency. */
  datatype Mention = Mention(node: Name, process: Name, dependency: Name)

  predicate IsMention(p: Processes, m: Mention) {
    m.node in Names(p) && m.process in Resolve(p, m.node) && m.dependency in p[m.process].dependsOn
  }

  /** Some dependency that resolves to no process is named twice. */
  ghost predicate UndefinedTwice(p: Processes) {
    exists m, m' :: m != m' && IsMention(p, m) && IsMention(p, m')
                    && m.dependency == m'.dependency && Undefined(p, m.dependency)
  }

  ghost predicate Rejectable(p: Processes) {
    HasCycle(DependencyGraph(p)) || UndefinedTwice(p)
  }

  // ----- Invariants of the search -----

  ghost predicate Defined(p: Processes, n: Name) {
    n in Names(p) && !Undefined(p, n)
  }

  /** `path` is the chain of calls in progress: a walk of distinct, defined nodes. */
  ghost predicate PathOk(p: Processes, path: seq<Name>, visited: set<Name>) {
    && (forall n :: n in path ==> n in visited && Defined(p, n))
    && Distinct(path)
    && (path != [] ==> IsWalk(DependencyGraph(p), path))
  }

  /** The stack marks are the calls in progress, plus every undefined name met so far. */
  ghost predicate StackOk(p: Processes, path: seq<Name>, visited: set<Name>, stack: set<Name>) {
    forall n :: n in stack <==> n in path || (n in visited && Undefined(p, n))
  }

  /** Finished nodes are those visited, defined and not in progress, in an order in which edges point back. */
  ghost predicate FinishedOk(p: Processes, path: seq<Name>, visited: set<Name>, finished: seq<Name>) {
    && (forall n :: n in finished <==> n in visited && Defined(p, n) && n !in path)
    && EdgesPointBack(DependencyGraph(p), finished)
  }

  /** The mentions followed so far: all of every finished node, none of an undefined name twice, and one
      for each undefined name met, except possibly `orphan`. */
  ghost predicate SeenOk(p: Processes, visited: set<Name>, finished: seq<Name>, seen: set<Mention>, orphan: set<Name>) {
    && (forall m :: m in seen ==> IsMention(p, m) && m.node in visited && m.dependency in visited)
    && (forall m :: IsMention(p, m) && m.node in finished ==> m in seen)
    && (forall m, m' :: m in seen && m' in seen && m.dependency == m'.dependency && Undefined(p, m.dependency) ==>
      m == m')
    && (forall n :: n in visited && Undefined(p, n) && n !in orphan ==> exists m :: m in seen && m.dependency == n)
  }

  ghost predicate SearchOk(p: Processes, path: seq<Name>, visited: set<Name>, stack: set<Name>,
                           finished: seq<Name>, seen: set<Mention>, orphan: set<Name>) {
    && visited <= Names(p)
    && PathOk(p, path, visited)
    && StackOk(p, path, visited, stack)
    && FinishedOk(p, path, visited, finished)
    && SeenOk(p, visited, finished, seen, orphan)
  }

  // ----- Steps of the search -----

  /** Entering a node that resolves to something. */
  lemma Enter(p: Processes, path: seq<Name>, visited: set<Name>, stack: set<Name>, finished: seq<Name>,
              seen: set<Mention>, n: Name)
    requires SearchOk(p, path, visited, stack, finished, seen, {})
    requires n in Names(p) && n !in visited && !Undefined(p, n)
    requires path != [] ==> Edge(DependencyGraph(p), path[|path| - 1], n)
    ensures SearchOk(p, path + [n], visited + {n}, stack + {n}, finished, seen, {})
  {
    ExtendWalk(DependencyGraph(p), path, n);
  }

  /** Meeting a name that resolves to nothing: it is marked, and its stack mark is never cleared. */
  lemma EnterUndefined(p: Processes, path: seq<Name>, visited: set<Name>, stack: set<Name>, finished: seq<Name>,
                       seen: set<Mention>, n: Name)
    requires SearchOk(p, path, visited, stack, finished, seen, {})
    requires n in Names(p) && n !in visited && Undefined(p, n)
    ensures SearchOk(p, path, visited + {n}, stack + {n}, finished, seen, {n})
  {
  }

  /** A mention followed to a name that is visited and not being explored. */
  lemma Follow(p: Processes, path: seq<Name>, visited: set<Name>, stack: set<Name>, finished: seq<Name>,
               seen: set<Mention>, m: Mention)
    requires SearchOk(p, path, visited, stack, finished, seen, {m.dependency})
    requires IsMention(p, m) && m.node in visited && m.dependency in visited
    requires Undefined(p, m.dependency) ==> forall m' :: m' in seen ==> m'.dependency != m.dependency
    ensures SearchOk(p, path, visited, stack, finished, seen + {m}, {})
  {
    hide PathOk, StackOk, FinishedOk, IsMention, Undefined;
    assert m in seen + {m};
  }

  lemma LastIsFresh(path: seq<Name>, n: Name)
    requires Distinct(path + [n])
    ensures n !in path
  {
    assert forall i :: 0 <= i < |path| ==> (path + [n])[i] == path[i];
    assert (path + [n])[|path|] == n;
  }

  /** Leaving a node all of whose mentions have been followed. */
  lemma Leave(p: Processes, path: seq<Name>, n: Name, visited: set<Name>, stack: set<Name>, finished: seq<Name>,
              seen: set<Mention>)
    requires SearchOk(p, path + [n], visited, stack, finished, seen, {})
    requires forall m :: IsMention(p, m) && m.node == n ==>
               m in seen && (Defined(p, m.dependency) ==> m.dependency in finished)
    ensures SearchOk(p, path, visited, stack - {n}, finished + [n], seen, {})
  {
    var finished' := finished + [n];
    assert forall x :: x in path + [n] <==> x in path || x == n;
    LastIsFresh(path, n);
    assert PathOk(p, path, visited) by {
      forall i | 0 <= i < |path| - 1 ensures Edge(DependencyGraph(p), path[i], path[i + 1]) {
        assert (path + [n])[i] == path[i] && (path + [n])[i + 1] == path[i + 1];
      }
      forall i, j | 0 <= i < j < |path| ensures path[i] != path[j] {
        assert (path + [n])[i] == path[i] && (path + [n])[j] == path[j];
      }
    }
    forall i, b | 0 <= i < |finished'| && Edge(DependencyGraph(p), finished'[i], b) && b in DependencyGraph(p)
      ensures b in finished'[..i]
    {
      if i < |finished| {
        assert finished'[..i] == finished[..i];
      } else {
        assert finished'[..i] == finished;
        var k :| k in Resolve(p, n) && b in p[k].dependsOn;
        assert IsMention(p, Mention(n, k, b));
      }
    }
  }

  /** A search that has visited every key rejects nothing that is rejectable. */
  lemma Complete(p: Processes, visited: set<Name>, stack: set<Name>, finished: seq<Name>, seen: set<Mention>)
    requires SearchOk(p, [], visited, stack, finished, seen, {}) && p.Keys <= visited
    ensures !Rejectable(p)
  {
    forall n | n in Names(p) ensures n in visited {
      if n !in p {
        var k :| k in p && n in p[k].dependsOn;
        assert Resolve(p, k) == {k};
        assert IsMention(p, Mention(k, k, n));
        assert k in finished;
      }
    }
    OrderMeansAcyclic(DependencyGraph(p), finished);
    forall m | IsMention(p, m) ensures m in seen {
      assert m.node in finished;
    }
  }

  /** validateNoCircularDependencies: the two maps it threads through the recursion. `finished` and `seen`
      record the course of the search for its proof. */
  class CycleDetector {
    const p: Processes
    var visited: set<Name>
    var stack: set<Name>
    ghost var finished: seq<Name>
    ghost var seen: set<Mention>

    ghost predicate Ok(path: seq<Name>, orphan: set<Name>)
      reads this
    {
      SearchOk(p, path, visited, stack, finished, seen, orphan)
    }

    /** The search only adds; what it adds to `seen` belongs to n or to nodes it entered. */
    twostate predicate Advanced(n: Name)
      reads this
    {
      && old(visited) <= visited && old(seen) <= seen
      && (forall x :: x in old(finished) ==> x in finished)
      && (forall m :: m in seen && m !in old(seen) ==> m.node == n || m.node !in old(visited))
    }

    /** Of the mentions made for procName exactly those of the processes `whole`, and of process k those of
        `part`, have been followed, to their end where they are defined. */
    ghost predicate Explored(procName: Name, whole: set<Name>, k: Name, part: set<Name>)
      reads this
    {
      forall m :: IsMention(p, m) && m.node == procName ==>
        && (m in seen <==> m.process in whole || (m.process == k && m.dependency in part))
        && (m in seen && Defined(p, m.dependency) ==> m.dependency in finished)
    }

    constructor (p: Processes)
      ensures this.p == p && Ok([], {}) && visited == {}
    {
      this.p := p;
      visited, stack, finished, seen := {}, {}, [], {};
    }

    method IsCyclicHelper(procName: Name, ghost path: seq<Name>) returns (cyclic: bool)
      requires Ok(path, {}) && procName in Names(p) && procName !in visited
      requires path != [] ==> Edge(DependencyGraph(p), path[|path| - 1], procName)
      modifies this
      ensures cyclic ==> Rejectable(p)
      ensures !cyclic ==> Ok(path, {procName}) && procName in visited && Advanced(procName)
      ensures !cyclic && !Undefined(p, procName) ==> Ok(path, {})
      ensures !cyclic && Undefined(p, procName) ==> seen == old(seen)
      decreases Names(p) - visited, 0
    {
      visited, stack := visited + {procName}, stack + {procName};
      var processes := Resolve(p, procName);
      if processes == {} {
        EnterUndefined(p, path, old(visited), old(stack), finished, seen, procName);
        return false;
      }
      Enter(p, path, old(visited), old(stack), finished, seen, procName);
      assert Names(p) - visited < old(Names(p) - visited) by { assert procName in old(Names(p) - visited); }
      cyclic := ExploreProcesses(procName, processes, path);
    }

    method ExploreProcesses(procName: Name, processes: set<Name>, ghost path: seq<Name>) returns (cyclic: bool)
      requires Ok(path + [procName], {}) && processes == Resolve(p, procName)
      requires forall m :: m in seen ==> m.node != procName
      modifies this
      ensures cyclic ==> Rejectable(p)
      ensures !cyclic ==> Ok(path, {}) && Advanced(procName)
      decreases Names(p) - visited, 3
    {
      hide SearchOk, Names, Rejectable, Defined;
      var left := processes;
      while left != {}
        invariant left <= processes
        invariant Ok(path + [procName], {}) && Advanced(procName)
        invariant Explored(procName, processes - left, procName, {})
        decreases left
      {
        var k :| k in left;
        cyclic := ExploreDependencies(procName, path, k, processes - left);
        if cyclic { return; }
        assert processes - left + {k} == processes - (left - {k});
        left := left - {k};
      }
      Leave(p, path, procName, visited, stack, finished, seen);
      stack, finished := stack - {procName}, finished + [procName];
      cyclic := false;
    }

    /** The inner loop: the dependencies of one process. */
    method ExploreDependencies(procName: Name, ghost path: seq<Name>, k: Name, ghost whole: set<Name>)
      returns (cyclic: bool)
      requires Ok(path + [procName], {}) && k in Resolve(p, procName) && k !in whole
      requires Explored(procName, whole, procName, {})
      modifies this
      ensures cyclic ==> Rejectable(p)
      ensures !cyclic ==> Ok(path + [procName], {}) && Advanced(procName)
      ensures !cyclic ==> Explored(procName, whole + {k}, procName, {})
      decreases Names(p) - visited, 2
    {
      hide SearchOk, Names, Rejectable, Defined;
      var neighbors := p[k].dependsOn;
      while neighbors != {}
        invariant neighbors <= p[k].dependsOn
        invariant Ok(path + [procName], {}) && Advanced(procName)
        invariant Explored(procName, whole, k, p[k].dependsOn - neighbors)
        decreases neighbors
      {
        var neighbor :| neighbor in neighbors;
        cyclic := FollowNeighbor(procName, path, k, neighbor, whole, p[k].dependsOn - neighbors);
        if cyclic { return; }
        assert p[k].dependsOn - neighbors + {neighbor} == p[k].dependsOn - (neighbors - {neighbor});
        neighbors := neighbors - {neighbor};
      }
      cyclic := false;
    }

    /** One round of the inner loop. */
    method FollowNeighbor(procName: Name, ghost path: seq<Name>, k: Name, neighbor: Name,
                          ghost whole: set<Name>, ghost part: set<Name>) returns (cyclic: bool)
      requires Ok(path + [procName], {}) && k in Resolve(p, procName) && k !in whole
      requires neighbor in p[k].dependsOn && neighbor !in part
      requires Explored(procName, whole, k, part)
      modifies this
      ensures cyclic ==> Rejectable(p)
      ensures !cyclic ==> Ok(path + [procName], {}) && Advanced(procName)
      ensures !cyclic ==> Explored(procName, whole, k, part + {neighbor})
      decreases Names(p) - visited, 1
    {
      ghost var m := Mention(procName, k, neighbor);
      ghost var here := path + [procName];
      assert here[|here| - 1] == procName && procName in here;
      assert IsMention(p, m) && m !in seen;
      if neighbor !in visited {
        cyclic := IsCyclicHelper(neighbor, here);
        if cyclic { return; }
      } else if neighbor in stack {
        if neighbor in here {
          BackEdge(DependencyGraph(p), here, neighbor);
        } else {
          var m' :| m' in seen && m'.dependency == neighbor;
        }
        return true;
      }
      Follow(p, here, visited, stack, finished, seen, m);
      seen := seen + {m};
      cyclic := false;
    }
  }

  /** The check rejects exactly the projects with a dependency cycle or an undefined dependency named twice,
      in whatever order the maps are visited. */
  method ValidateNoCircularDependencies(p: Processes) returns (rejected: bool)
    ensures rejected <==> Rejectable(p)
    ensures (forall n :: n in Names(p) ==> !Undefined(p, n)) ==> (rejected <==> HasCycle(DependencyGraph(p)))
  {
    var search := new CycleDetector(p);
    var left := p.Keys;
    while left != {}
      invariant left <= p.Keys && search.p == p && fresh(search)
      invariant search.Ok([], {}) && p.Keys - left <= search.visited
      decreases left
    {
      var name :| name in left;
      if name !in search.visited {
        var cyclic := search.IsCyclicHelper(name, []);
        if cyclic { return true; }
      }
      left := left - {name};
    }
    Complete(p, search.visited, search.stack, search.finished, search.seen);
    rejected := false;
  }

  /** The reverse fails without that condition: two processes that name the same missing dependency are
      reported as circular though nothing is. */
  lemma MissingNameTakenForCycle() returns (p: Processes)
    ensures Rejectable(p) && !HasCycle(DependencyGraph(p))
  {
    var a := ProcessConfig("a", "a", {"x"}, false, false);
    var b := ProcessConfig("b", "b", {"x"}, false, false);
    p := map["a" := a, "b" := b];
    assert Resolve(p, "a") == {"a"} && Resolve(p, "b") == {"b"} && Resolve(p, "x") == {};
    assert IsMention(p, Mention("a", "a", "x")) && IsMention(p, Mention("b", "b", "x"));
    assert Names(p) <= {"a", "b", "x"};
    assert Successors(p, "a") <= {"x"} && Successors(p, "b") <= {"x"};
    OrderMeansAcyclic(DependencyGraph(p), ["a", "b"]);
  }
}

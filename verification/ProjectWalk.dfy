/** Visiting processes and their dependencies in dependency order: one recursive walk over a shared `done` mark. */
module ProjectWalk {
  import opened Common
  import opened Graph
  import opened Types

  /** The processes a walk starts from: all of them when no name is given. */
  function Start(p: Processes, names: seq<Name>): set<Name> {
    if names == [] then p.Keys else set n, k | n in names && k in Resolve(p, n) :: k
  }

  ghost predicate Wanted(p: Processes, names: seq<Name>, k: Name) {
    exists s :: s in Start(p, names) && (s == k || Reaches(ProcessGraph(p), s, k))
  }

  ghost predicate AllDefined(p: Processes, names: seq<Name>) {
    forall n :: n in names ==> !Undefined(p, n)
  }

  /** Nothing can go wrong at k: its dependencies are defined and the visitor accepts it. */
  ghost predicate Sound(p: Processes, fails: ProcessConfig -> bool, k: Name) {
    k in p && !fails(p[k]) && forall d :: d in p[k].dependsOn ==> !Undefined(p, d)
  }

  ghost predicate Healthy(p: Processes, fails: ProcessConfig -> bool, names: seq<Name>) {
    AllDefined(p, names) && forall k :: Wanted(p, names, k) ==> Sound(p, fails, k)
  }

  lemma WantedThroughDependency(p: Processes, names: seq<Name>, k: Name, deps: seq<Name>, j: Name)
    requires k in Start(p, names) && k in p && deps != [] && (forall d :: d in deps ==> d in p[k].dependsOn)
    requires Wanted(p, deps, j)
    ensures Wanted(p, names, j)
  {
    var s :| s in Start(p, deps) && (s == j || Reaches(ProcessGraph(p), s, j));
    ReachesStep(ProcessGraph(p), k, s, j);
  }

  lemma UnhealthyThroughDependency(p: Processes, fails: ProcessConfig -> bool, names: seq<Name>, k: Name,
                                   deps: seq<Name>)
    requires k in Start(p, names) && k in p && deps != [] && (forall d :: d in deps ==> d in p[k].dependsOn)
    requires !Healthy(p, fails, deps)
    ensures !Healthy(p, fails, names)
  {
    assert Wanted(p, names, k);
    if AllDefined(p, deps) {
      var j :| Wanted(p, deps, j) && !Sound(p, fails, j);
      WantedThroughDependency(p, names, k, deps, j);
    }
  }

  lemma DependenciesAreSuccessors(p: Processes, k: Name, deps: seq<Name>)
    requires k in p && forall d :: d in deps <==> d in p[k].dependsOn
    ensures deps != [] ==> forall j :: j in Start(p, deps) <==> Edge(ProcessGraph(p), k, j)
    ensures deps == [] ==> p[k].dependsOn == {} && forall j :: !Edge(ProcessGraph(p), k, j)
  {
    forall d | d in p[k].dependsOn ensures deps != [] {
      assert d in deps;
    }
  }

  lemma FailureIsUnhealthy(p: Processes, fails: ProcessConfig -> bool, names: seq<Name>, k: Name)
    requires k in Start(p, names) && k in p
    ensures Wanted(p, names, k)
    ensures fails(p[k]) ==> !Healthy(p, fails, names)
  {
    assert Wanted(p, names, k);
    assert fails(p[k]) ==> !Sound(p, fails, k);
  }

  lemma UndefinedIsUnhealthy(p: Processes, fails: ProcessConfig -> bool, names: seq<Name>)
    ensures !AllDefined(p, names) ==> !Healthy(p, fails, names)
  {
  }

  /** What has been visited, in order; `skipped` are the processes given up because of an error. */
  ghost predicate WalkOk(p: Processes, fails: ProcessConfig -> bool, path: seq<Name>,
                         done: set<Name>, calls: seq<Name>, skipped: set<Name>) {
    && done <= p.Keys && Distinct(calls)
    && (forall k :: k in done <==> k in calls || k in path || k in skipped)
    && (forall k :: k in path ==> k !in calls)
    && (path != [] ==> IsWalk(ProcessGraph(p), path))
    && (forall k :: k in calls && k !in skipped ==> Sound(p, fails, k))
    && (!HasCycle(ProcessGraph(p)) ==> DependenciesFirst(p, calls, skipped))
  }

  ghost predicate DependenciesFirst(p: Processes, calls: seq<Name>, skipped: set<Name>) {
    forall i, b :: 0 <= i < |calls| && Edge(ProcessGraph(p), calls[i], b) ==> b in calls[..i] || b in skipped
  }

  lemma BeginProcess(p: Processes, fails: ProcessConfig -> bool, path: seq<Name>,
                     done: set<Name>, calls: seq<Name>, skipped: set<Name>, k: Name)
    requires WalkOk(p, fails, path, done, calls, skipped) && k in p && k !in done
    requires path != [] ==> Edge(ProcessGraph(p), path[|path| - 1], k)
    ensures WalkOk(p, fails, path + [k], done + {k}, calls, skipped)
  {
    ExtendWalk(ProcessGraph(p), path, k);
  }

  /** The path without its last process, which is given up. */
  lemma AbandonProcess(p: Processes, fails: ProcessConfig -> bool, path: seq<Name>,
                       done: set<Name>, calls: seq<Name>, skipped: set<Name>, k: Name)
    requires WalkOk(p, fails, path + [k], done, calls, skipped)
    ensures WalkOk(p, fails, path, done, calls, skipped + {k})
  {
    assert forall x :: x in path + [k] <==> x in path || x == k;
    assert forall i :: 0 <= i < |path| ==> (path + [k])[i] == path[i];
  }

  /** The visitor is called once every dependency has been walked. */
  lemma FinishProcess(p: Processes, fails: ProcessConfig -> bool, path: seq<Name>,
                      done: set<Name>, calls: seq<Name>, skipped: set<Name>, k: Name)
    requires WalkOk(p, fails, path + [k], done, calls, skipped) && k !in path
    requires forall d :: d in p[k].dependsOn ==> !Undefined(p, d)
    requires forall j :: Edge(ProcessGraph(p), k, j) ==> j in done
    ensures WalkOk(p, fails, path, done, calls + [k], skipped + if fails(p[k]) then {k} else {})
  {
    var calls', here := calls + [k], path + [k];
    assert forall x :: x in here <==> x in path || x == k;
    assert forall i :: 0 <= i < |path| ==> here[i] == path[i];
    assert here[|here| - 1] == k;
    if !HasCycle(ProcessGraph(p)) {
      forall i, b | 0 <= i < |calls'| && Edge(ProcessGraph(p), calls'[i], b)
        ensures b in calls'[..i] || b in skipped
      {
        if i < |calls| {
          assert calls'[..i] == calls[..i];
        } else {
          assert calls'[..i] == calls;
          if b in here { BackEdge(ProcessGraph(p), here, b); }
        }
      }
    }
  }

  /** A walk without errors from an empty mark has visited exactly what was wanted. */
  lemma CompleteWalk(p: Processes, fails: ProcessConfig -> bool, names: seq<Name>, calls: seq<Name>, done: set<Name>)
    requires WalkOk(p, fails, [], done, calls, {}) && Start(p, names) <= done && AllDefined(p, names)
    requires forall k :: k in calls ==> forall j :: Edge(ProcessGraph(p), k, j) ==> j in done
    ensures forall k :: Wanted(p, names, k) ==> k in calls
    ensures Healthy(p, fails, names)
  {
    forall k | Wanted(p, names, k) ensures k in calls {
      var s :| s in Start(p, names) && (s == k || Reaches(ProcessGraph(p), s, k));
      if s != k {
        var w :| |w| >= 2 && WalkFromTo(ProcessGraph(p), w, s, k);
        WalkStaysInside(ProcessGraph(p), w, calls);
      }
    }
  }

  lemma {:induction false} WalkStaysInside(g: Graph, w: seq<Name>, calls: seq<Name>)
    requires IsWalk(g, w) && w[0] in calls
    requires forall k :: k in calls ==> forall j :: Edge(g, k, j) ==> j in calls
    ensures w[|w| - 1] in calls
    decreases |w|
  {
    if |w| > 1 {
      assert Edge(g, w[0], w[1]);
      assert forall i :: 0 <= i < |w| - 1 ==> w[1..][i] == w[i + 1];
      WalkStaysInside(g, w[1..], calls);
    }
  }

  function Concatenated(parts: seq<seq<Name>>): seq<Name> {
    if parts == [] then [] else Concatenated(parts[..|parts| - 1]) + parts[|parts| - 1]
  }

  /** The processes of a set, each once, in some order. */
  ghost predicate Lists(part: seq<Name>, s: set<Name>) {
    Distinct(part) && forall k :: k in part <==> k in s
  }

  lemma OneMoreName(p: Processes, names: seq<Name>, i: nat, keys: seq<Name>, part: seq<Name>)
    requires i < |names| && Lists(part, Resolve(p, names[i]))
    requires forall k :: k in keys <==> exists n :: n in names[..i] && k in Resolve(p, n)
    ensures forall k :: k in keys + part <==> exists n :: n in names[..i + 1] && k in Resolve(p, n)
  {
    assert names[..i + 1] == names[..i] + [names[i]];
    forall k ensures k in keys + part <==> exists n :: n in names[..i + 1] && k in Resolve(p, n) {
      if k in part {
        assert names[i] in names[..i + 1] && k in Resolve(p, names[i]);
      } else if k in keys {
        var n :| n in names[..i] && k in Resolve(p, n);
        assert n in names[..i + 1];
      }
    }
  }

  lemma NobodyNamed(p: Processes, n: Name)
    ensures Undefined(p, n) <==> n !in p && forall k :: k in p ==> p[k].name != n
  {
    if !Undefined(p, n) {
      var k :| k in Resolve(p, n);
    }
    if k :| k in p && p[k].name == n && n !in p {
      assert k in Resolve(p, n);
    }
  }

  /** GetProcesses: name by name, in the order given, the keys of the processes each stands for, once each in
      some order, so that a process named twice comes twice; all processes, once each, when no name is given;
      or nothing when a name stands for none. */
  method GetProcesses(p: Processes, names: seq<Name>) returns (r: Option<seq<Name>>, ghost parts: seq<seq<Name>>)
    ensures r.None? <==> !AllDefined(p, names)
    ensures r.Some? && names == [] ==> Lists(r.value, p.Keys)
    ensures r.Some? && names != [] ==>
              && |parts| == |names| && r.value == Concatenated(parts)
              && forall i :: 0 <= i < |names| ==> Lists(parts[i], Resolve(p, names[i]))
    ensures r.Some? && names != [] ==>
              forall i, k :: 0 <= i < |names| ==>
                (k in parts[i] <==> if names[i] in p then k == names[i] else k in p && p[k].name == names[i])
    ensures r.None? <==> exists n :: n in names && n !in p && forall k :: k in p ==> p[k].name != n
    ensures r.Some? ==> forall k :: k in r.value <==> k in Start(p, names)
  {
    parts := [];
    if names == [] {
      var all := Enumerate(p.Keys);
      return Some(all), [];
    }
    var keys: seq<Name> := [];
    for i := 0 to |names|
      invariant AllDefined(p, names[..i])
      invariant |parts| == i && keys == Concatenated(parts)
      invariant forall j :: 0 <= j < i ==> Lists(parts[j], Resolve(p, names[j]))
      invariant forall k :: k in keys <==> exists n :: n in names[..i] && k in Resolve(p, n)
    {
      assert names[..i + 1] == names[..i] + [names[i]];
      var part := ProcessesNamed(p, names[i]);
      if part == [] {
        assert names[i] in names && Undefined(p, names[i]);
        NobodyNamed(p, names[i]);
        return None, [];
      }
      assert part[0] in Resolve(p, names[i]);
      OneMoreName(p, names, i, keys, part);
      assert (parts + [part])[..i] == parts;
      keys, parts := keys + part, parts + [part];
    }
    assert names[..|names|] == names;
    r := Some(keys);
  }

  /** The process with this key, or else all those of this name. */
  method ProcessesNamed(p: Processes, name: Name) returns (part: seq<Name>)
    ensures Lists(part, Resolve(p, name))
  {
    if name in p {
      part := [name];
      assert Resolve(p, name) == {name};
    } else {
      part := Enumerate(Resolve(p, name));
    }
  }

  class Walk {
    const p: Processes
    const fails: ProcessConfig -> bool
    var done: set<Name>
    /** The processes the visitor was called with, in order. */
    var calls: seq<Name>
    ghost var skipped: set<Name>

    ghost predicate Ok(path: seq<Name>)
      reads this
    {
      && KeyedByReplicaName(p) && WalkOk(p, fails, path, done, calls, skipped)
      && (forall k, j :: k in calls && Edge(ProcessGraph(p), k, j) ==> j in done)
    }

    constructor (p: Processes, fails: ProcessConfig -> bool)
      requires KeyedByReplicaName(p)
      ensures this.p == p && this.fails == fails && Ok([]) && done == {} && skipped == {}
    {
      this.p, this.fails := p, fails;
      done, calls, skipped := {}, [], {};
    }

    method WithProcesses(names: seq<Name>, ghost path: seq<Name>) returns (err: bool)
      requires Ok(path)
      requires path != [] ==> forall k :: k in Start(p, names) ==> Edge(ProcessGraph(p), path[|path| - 1], k)
      modifies this
      ensures Ok(path) && old(done) <= done && old(skipped) <= skipped
      ensures forall k :: k in done && k !in old(done) ==> Wanted(p, names, k)
      ensures err ==> !Healthy(p, fails, names)
      ensures !err ==> skipped == old(skipped) && Start(p, names) <= done && AllDefined(p, names)
      decreases p.Keys - done, 1
    {
      UndefinedIsUnhealthy(p, fails, names);
      hide Lists, Concatenated, WalkOk, Wanted, Healthy, Edge, ProcessGraph;
      var processes, _ := GetProcesses(p, names);
      if processes.None? {
        return true;
      }
      var finalErr := false;
      for i := 0 to |processes.value|
        invariant Ok(path) && old(done) <= done && old(skipped) <= skipped
        invariant forall k :: k in processes.value[..i] ==> k in done
        invariant forall k :: k in done && k !in old(done) ==> Wanted(p, names, k)
        invariant finalErr ==> !Healthy(p, fails, names)
        invariant !finalErr ==> skipped == old(skipped)
      {
        assert processes.value[i] in processes.value;
        var process := p[processes.value[i]];
        if process.replicaName !in done {
          var ok, stop := VisitProcess(process.replicaName, names, path);
          if stop {
            return true;
          }
          finalErr := finalErr || !ok;
        }
      }
      err := finalErr;
    }

    /** One round of the loop over a process that is not yet done. */
    method VisitProcess(k: Name, ghost names: seq<Name>, ghost path: seq<Name>) returns (ok: bool, stop: bool)
      requires Ok(path) && k in Start(p, names) && k in p && k !in done
      requires path != [] ==> Edge(ProcessGraph(p), path[|path| - 1], k)
      modifies this
      ensures Ok(path) && old(done) + {k} <= done && old(skipped) <= skipped
      ensures forall j :: j in done && j !in old(done) ==> Wanted(p, names, j)
      ensures stop || !ok ==> !Healthy(p, fails, names)
      ensures ok ==> skipped == old(skipped)
      decreases p.Keys - done, 0
    {
      assert k !in path && done <= p.Keys && old(p.Keys - done) > p.Keys - (done + {k}) by {
        assert k in old(p.Keys - done);
      }
      BeginProcess(p, fails, path, done, calls, skipped, k);
      FailureIsUnhealthy(p, fails, names, k);
      hide WalkOk, Wanted, Healthy, Sound, Edge, ProcessGraph, Resolve, Undefined, Start;
      done := done + {k};
      ok, stop := true, false;
      var dependencies := Enumerate(p[k].dependsOn);
      DependenciesAreSuccessors(p, k, dependencies);
      if |dependencies| > 0 {
        var err := WithProcesses(dependencies, path + [k]);
        forall j | Wanted(p, dependencies, j) ensures Wanted(p, names, j) {
          WantedThroughDependency(p, names, k, dependencies, j);
        }
        if err {
          AbandonProcess(p, fails, path, done, calls, skipped, k);
          skipped := skipped + {k};
          UnhealthyThroughDependency(p, fails, names, k, dependencies);
          return false, false;
        }
      }
      FinishProcess(p, fails, path, done, calls, skipped, k);
      calls := calls + [k];
      if fails(p[k]) {
        skipped := skipped + {k};
        return false, true;
      }
      assert skipped + {} == skipped;
    }
  }

  /** WithProcesses: it always ends, calls the visitor at most once for each process and only for processes
      wanted; it reports an error exactly when something wanted is unsound; and without an error it has
      visited all that was wanted, each process after everything it depends on. */
  method WithProcesses(p: Processes, fails: ProcessConfig -> bool, names: seq<Name>)
    returns (err: bool, calls: seq<Name>)
    requires KeyedByReplicaName(p)
    ensures err <==> !Healthy(p, fails, names)
    ensures Distinct(calls) && forall k :: k in calls ==> k in p && Wanted(p, names, k)
    ensures !err ==> forall k :: Wanted(p, names, k) ==> k in calls
    ensures !err && !HasCycle(ProcessGraph(p)) ==> EdgesPointBack(ProcessGraph(p), calls)
  {
    var walk := new Walk(p, fails);
    err := walk.WithProcesses(names, []);
    calls := walk.calls;
    if !err {
      CompleteWalk(p, fails, names, calls, walk.done);
    }
  }

  /** GetDependenciesOrderNames on a project the load-time check accepted and whose dependencies exist: every
      process that is to run, once, after each one it depends on, even through processes that are not to run. */
  method GetDependenciesOrderNames(p: Processes) returns (err: bool, order: seq<Name>)
    requires KeyedByReplicaName(p)
    ensures err <==> exists n :: n in Names(p) && Undefined(p, n)
    ensures !err ==> Distinct(order) && forall k :: k in order <==> k in p && !p[k].disabled && !p[k].isForeground
    ensures !err && !HasCycle(DependencyGraph(p)) ==>
              forall a, b :: a in order && b in order && Reaches(ProcessGraph(p), b, a) ==> Before(order, a, b)
  {
    var all;
    err, all := WithProcesses(p, _ => false, []);
    NothingUndefined(p);
    order := NotDeferred(p, all);
    NotDeferredKeepsOrder(p, all);
    if !err {
      AllAreWanted(p);
      if !HasCycle(DependencyGraph(p)) {
        if HasCycle(ProcessGraph(p)) { ProcessCycleIsNameCycle(p); }
        forall a, b | a in order && b in order && Reaches(ProcessGraph(p), b, a) ensures Before(order, a, b) {
          var w :| |w| >= 2 && WalkFromTo(ProcessGraph(p), w, b, a);
          WalkInProject(p, w);
          WalksPointBack(ProcessGraph(p), all, w);
        }
      }
    }
  }

  lemma AllAreWanted(p: Processes)
    ensures forall k :: Wanted(p, [], k) <==> k in p
  {
    forall k ensures Wanted(p, [], k) <==> k in p {
      if k in p {
        assert k in Start(p, []);
      } else if Wanted(p, [], k) {
        var s :| s in p && Reaches(ProcessGraph(p), s, k);
        var w :| |w| >= 2 && WalkFromTo(ProcessGraph(p), w, s, k);
        WalkInProject(p, w);
      }
    }
  }

  /** With a visitor that never fails, a walk of the whole project fails only on an undefined dependency. */
  lemma NothingUndefined(p: Processes)
    ensures Healthy(p, _ => false, []) <==> forall n :: n in Names(p) ==> !Undefined(p, n)
  {
    AllAreWanted(p);
    if Healthy(p, _ => false, []) {
      forall n | n in Names(p) ensures !Undefined(p, n) {
        if n !in p {
          var k :| k in p && n in p[k].dependsOn;
          assert Sound(p, _ => false, k);
        }
      }
    }
  }

  lemma WalkInProject(p: Processes, w: seq<Name>)
    requires IsWalk(ProcessGraph(p), w) && |w| >= 2
    ensures forall i :: 0 <= i < |w| ==> w[i] in p
  {
    forall i | 0 <= i < |w| ensures w[i] in p {
      if i > 0 {
        assert Edge(ProcessGraph(p), w[i - 1], w[i]);
      } else {
        assert Edge(ProcessGraph(p), w[0], w[1]);
      }
    }
  }
}

/** Process configurations, as far as dependency order and replicas go. */
module Types {
  import opened Common
  import opened Graph

  datatype ProcessConfig = ProcessConfig(
    name: Name,
    replicaName: Name,
    dependsOn: set<Name>,
    isForeground: bool,
    disabled: bool)
  {
    predicate IsDeferred() {
      isForeground || disabled
    }
  }

  /** The project's processes, keyed by replica name. */
  type Processes = map<Name, ProcessConfig>

  predicate KeyedByReplicaName(p: Processes) {
    forall k :: k in p ==> p[k].replicaName == k
  }

  /** GetProcesses for one name: the process of that key, or else every replica of that process name. */
  function Resolve(p: Processes, n: Name): set<Name> {
    if n in p then {n} else set k | k in p && p[k].name == n
  }

  /** Every name that occurs in the project, as a key or as a dependency. */
  function Names(p: Processes): set<Name> {
    p.Keys + set k, d | k in p && d in p[k].dependsOn :: d
  }

  /** What a name depends on: the dependencies of every process it resolves to. */
  function Successors(p: Processes, n: Name): set<Name> {
    set k, d | k in Resolve(p, n) && d in p[k].dependsOn :: d
  }

  /** The names that resolve to something, with what they depend on. */
  function DependencyGraph(p: Processes): Graph {
    map n | n in Names(p) && Resolve(p, n) != {} :: Successors(p, n)
  }

  predicate Undefined(p: Processes, n: Name) {
    Resolve(p, n) == {}
  }

  /** The processes a process depends on, and what they depend on in turn. */
  function ProcessGraph(p: Processes): Graph {
    map k | k in p :: set d, j | d in p[k].dependsOn && j in Resolve(p, d) :: j
  }

  lemma ProcessEdge(p: Processes, k: Name, j: Name)
    ensures Edge(ProcessGraph(p), k, j) <==> k in p && exists d :: d in p[k].dependsOn && j in Resolve(p, d)
  {
  }

  /** The name by which a process names another. */
  ghost function NameUsed(p: Processes, k: Name, j: Name): (d: Name)
    requires Edge(ProcessGraph(p), k, j)
    ensures k in p && d in p[k].dependsOn && j in Resolve(p, d)
  {
    ProcessEdge(p, k, j);
    var d :| d in p[k].dependsOn && j in Resolve(p, d);
    d
  }

  /** The i-th name used along a cycle, the first one again at the end. */
  ghost function NameAt(p: Processes, w: seq<Name>, i: nat): Name
    requires IsCycle(ProcessGraph(p), w) && i < |w|
  {
    var j := if i + 1 < |w| then i else 0;
    assert Edge(ProcessGraph(p), w[j], w[j + 1]);
    NameUsed(p, w[j], w[j + 1])
  }

  lemma NamesFollow(p: Processes, w: seq<Name>, i: nat)
    requires IsCycle(ProcessGraph(p), w) && i + 1 < |w|
    ensures Edge(DependencyGraph(p), NameAt(p, w, i), NameAt(p, w, i + 1))
  {
    hide Edge, ProcessGraph;
    var next := if i + 2 < |w| then i + 1 else 0;
    assert w[i + 1] == w[next];
    NameLeadsOn(p, w[i], w[next], w[next + 1]);
  }

  lemma NameLeadsOn(p: Processes, k: Name, j: Name, i: Name)
    requires Edge(ProcessGraph(p), k, j) && Edge(ProcessGraph(p), j, i)
    ensures Edge(DependencyGraph(p), NameUsed(p, k, j), NameUsed(p, j, i))
  {
  }

  /** A cycle among processes shows as a cycle among the names they use, so the load-time check covers it. */
  lemma ProcessCycleIsNameCycle(p: Processes)
    requires HasCycle(ProcessGraph(p))
    ensures HasCycle(DependencyGraph(p))
  {
    var w :| IsCycle(ProcessGraph(p), w);
    var v := seq(|w|, i requires 0 <= i < |w| => NameAt(p, w, i));
    forall i | 0 <= i < |v| - 1 ensures Edge(DependencyGraph(p), v[i], v[i + 1]) {
      NamesFollow(p, w, i);
    }
    hide Edge, NameUsed;
    assert IsCycle(DependencyGraph(p), v);
  }

  /** A list of processes without the disabled and foreground ones. */
  function NotDeferred(p: Processes, order: seq<Name>): (r: seq<Name>)
    requires forall k :: k in order ==> k in p
    ensures forall k :: k in r <==> k in order && !p[k].IsDeferred()
  {
    if order == [] then [] else
      var front, last := order[..|order| - 1], order[|order| - 1];
      assert order == front + [last];
      if p[last].IsDeferred() then NotDeferred(p, front) else NotDeferred(p, front) + [last]
  }

  /** Leaving processes out keeps the order of the others. */
  lemma {:induction false} NotDeferredKeepsOrder(p: Processes, order: seq<Name>)
    requires Distinct(order) && forall k :: k in order ==> k in p
    ensures Distinct(NotDeferred(p, order))
    ensures forall a, b :: Before(NotDeferred(p, order), a, b)
                           <==> Before(order, a, b) && !p[a].IsDeferred() && !p[b].IsDeferred()
  {
    if order != [] {
      var front, last := order[..|order| - 1], order[|order| - 1];
      assert order == front + [last] && last !in front;
      NotDeferredKeepsOrder(p, front);
      forall a, b
        ensures Before(NotDeferred(p, order), a, b)
                <==> Before(order, a, b) && !p[a].IsDeferred() && !p[b].IsDeferred()
      {
        BeforeAppend(front, last, a, b);
        BeforeAppend(NotDeferred(p, front), last, a, b);
      }
      DistinctAppend(NotDeferred(p, front), last);
    }
  }
}

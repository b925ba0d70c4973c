/** Process-level `extends`: a memoised depth-first search that overwrites the map it reads. */
module Extends {
  import opened Common

  /** A configuration without its `extends` field; only copying and merging look inside. */
  type Body = int

  datatype Config = Config(extendsName: Name, body: Body)

  type Configs = map<Name, Config>

  /** deepCopyProcess and mergeProcess: the copy of a parent, and a child merged onto it. Either may fail. */
  datatype Engine = Engine(copy: Body -> Option<Body>, merge: (Body, Body) -> Option<Body>)

  // ----- What resolution means -----

  ghost predicate Inherits(p: Configs, n: Name, parent: Name) {
    n in p && parent != "" && p[n].extendsName == parent
  }

  /** The names met by following `extends` from n until a process that extends nothing. */
  ghost predicate IsChain(p: Configs, n: Name, w: seq<Name>) {
    && |w| > 0 && w[0] == n
    && (forall i :: 0 <= i < |w| ==> w[i] in p)
    && (forall i :: 0 <= i < |w| - 1 ==> Inherits(p, w[i], w[i + 1]))
    && p[w[|w| - 1]].extendsName == ""
  }

  function Derive(e: Engine, base: Body, child: Body): Option<Body> {
    match e.copy(base)
    case None => None
    case Some(copied) => e.merge(copied, child)
  }

  /** The merges along a chain, from its root down. */
  function Fold(e: Engine, p: Configs, w: seq<Name>): Option<Body>
    requires |w| > 0 && forall i :: 0 <= i < |w| ==> w[i] in p
  {
    if |w| == 1 then Some(p[w[0]].body)
    else match Fold(e, p, w[1..])
      case None => None
      case Some(base) => Derive(e, base, p[w[0]].body)
  }

  ghost predicate HasValue(e: Engine, p: Configs, n: Name) {
    exists w :: IsChain(p, n, w) && Fold(e, p, w).Some?
  }

  lemma ChainTail(p: Configs, n: Name, w: seq<Name>)
    requires IsChain(p, n, w) && |w| > 1
    ensures IsChain(p, w[1], w[1..]) && Inherits(p, n, w[1])
  {
    assert Inherits(p, w[0], w[1]);
    assert forall i :: 0 <= i < |w| - 1 ==> w[1..][i] == w[i + 1];
  }

  lemma ChainCons(p: Configs, n: Name, parent: Name, w: seq<Name>)
    requires Inherits(p, n, parent) && IsChain(p, parent, w)
    ensures IsChain(p, n, [n] + w) && ([n] + w)[1..] == w
  {
    var v := [n] + w;
    forall i | 0 <= i < |v| - 1 ensures Inherits(p, v[i], v[i + 1]) {
      if i > 0 { assert v[i] == w[i - 1] && v[i + 1] == w[i]; }
    }
  }

  lemma ChainGoesOn(p: Configs, n: Name, w: seq<Name>)
    requires IsChain(p, n, w)
    ensures |w| > 1 ==> Inherits(p, n, w[1])
  {
    if |w| > 1 { assert Inherits(p, w[0], w[1]); }
  }

  /** Following `extends` is deterministic. */
  lemma {:induction false} ChainUnique(p: Configs, n: Name, v: seq<Name>, w: seq<Name>)
    requires IsChain(p, n, v) && IsChain(p, n, w)
    ensures v == w
    decreases |v|
  {
    if |v| > 1 {
      assert Inherits(p, v[0], v[1]);
      InheritorChain(p, n, v[1], w);
      ChainTail(p, n, v);
      ChainTail(p, n, w);
      ChainUnique(p, v[1], v[1..], w[1..]);
      assert v == [n] + v[1..] && w == [n] + w[1..];
    } else {
      ChainGoesOn(p, n, w);
      assert v == [n] && w == [n];
    }
  }

  /** A chain from a process that extends another goes on to it. */
  lemma InheritorChain(p: Configs, n: Name, parent: Name, w: seq<Name>)
    requires Inherits(p, n, parent) && IsChain(p, n, w)
    ensures |w| > 1 && w[1] == parent && parent in p
  {
    if |w| > 1 { assert Inherits(p, w[0], w[1]); }
  }

  /** A process that extends a missing one has no chain. */
  lemma NoChainToNothing(p: Configs, n: Name, parent: Name)
    requires Inherits(p, n, parent) && parent !in p
    ensures forall w :: !IsChain(p, n, w)
  {
    forall w ensures !IsChain(p, n, w) {
      if IsChain(p, n, w) { InheritorChain(p, n, parent, w); }
    }
  }

  /** The value of a process whose parent has one, or fails to. */
  lemma ValueFromParent(e: Engine, p: Configs, n: Name, parent: Name)
    requires Inherits(p, n, parent) && HasValue(e, p, n)
    ensures HasValue(e, p, parent)
    ensures forall v :: IsChain(p, parent, v) ==>
              Fold(e, p, v).Some? && Derive(e, Fold(e, p, v).value, p[n].body).Some?
  {
    var w :| IsChain(p, n, w) && Fold(e, p, w).Some?;
    InheritorChain(p, n, parent, w);
    ChainTail(p, n, w);
    assert IsChain(p, parent, w[1..]) && Fold(e, p, w[1..]).Some?;
    forall v | IsChain(p, parent, v) ensures v == w[1..] {
      ChainUnique(p, parent, v, w[1..]);
    }
  }

  /** Each name extends the next. */
  ghost predicate IsLink(p: Configs, c: seq<Name>) {
    (forall i :: 0 <= i < |c| ==> c[i] in p)
    && forall i :: 0 <= i < |c| - 1 ==> Inherits(p, c[i], c[i + 1])
  }

  lemma {:induction false} ChainFollowsLink(p: Configs, c: seq<Name>, w: seq<Name>)
    requires |c| > 0 && IsLink(p, c) && IsChain(p, c[0], w)
    ensures |w| >= |c| && IsChain(p, c[|c| - 1], w[|c| - 1..])
    decreases |c|
  {
    if |c| == 1 {
      assert w[0..] == w;
    } else {
      assert Inherits(p, c[0], c[1]);
      InheritorChain(p, c[0], c[1], w);
      ChainTail(p, c[0], w);
      assert forall i :: 0 <= i < |c| - 1 ==> c[1..][i] == c[i + 1];
      ChainFollowsLink(p, c[1..], w[1..]);
      assert w[1..][|c| - 2..] == w[|c| - 1..];
    }
  }

  lemma LinkSuffix(p: Configs, c: seq<Name>, k: nat)
    requires IsLink(p, c) && k <= |c|
    ensures IsLink(p, c[k..])
  {
    forall i | 0 <= i < |c[k..]| - 1 ensures Inherits(p, c[k..][i], c[k..][i + 1]) {
      assert c[k..][i] == c[k + i] && c[k..][i + 1] == c[k + i + 1];
    }
  }

  /** A process that is met again while its own chain is followed has no chain. */
  lemma NoChainInCycle(p: Configs, path: seq<Name>, n: Name)
    requires IsLink(p, path + [n]) && n in path
    ensures forall w :: !IsChain(p, n, w)
  {
    forall w ensures !IsChain(p, n, w) {
      if IsChain(p, n, w) {
        var k :| 0 <= k < |path| && path[k] == n;
        var c := (path + [n])[k..];
        LinkSuffix(p, path + [n], k);
        ChainFollowsLink(p, c, w);
        ChainUnique(p, n, w, w[|c| - 1..]);
      }
    }
  }

  lemma SingleLink(p: Configs, n: Name)
    requires n in p
    ensures IsLink(p, [] + [n])
  {
  }

  // ----- The search -----

  datatype VisitState = Unvisited | InProgress | Resolved

  /** c is what the fold of n's chain gives, and extends nothing. */
  ghost predicate IsValue(e: Engine, p: Configs, n: Name, c: Config) {
    c.extendsName == "" && exists w :: IsChain(p, n, w) && Fold(e, p, w) == Some(c.body)
  }

  function VisitOf(state: map<Name, VisitState>, n: Name): VisitState {
    if n in state then state[n] else Unvisited
  }

  /** While `path` is being resolved: resolved entries hold their value and extend nothing any more; all others
      are as they were. */
  ghost predicate Resolving(e: Engine, original: Configs, procs: Configs, state: map<Name, VisitState>,
                            path: seq<Name>) {
    && procs.Keys == original.Keys
    && IsLink(original, path)
    && (forall n :: n in original ==> (VisitOf(state, n) == InProgress <==> n in path))
    && (forall n :: n in original && VisitOf(state, n) != Resolved ==> procs[n] == original[n])
    && (forall n :: n in original && VisitOf(state, n) == Resolved ==> IsValue(e, original, n, procs[n]))
  }

  lemma Replaced(e: Engine, original: Configs, procs: Configs, state: map<Name, VisitState>, path: seq<Name>,
                 name: Name, config: Config)
    requires Resolving(e, original, procs, state, path + [name]) && name in original && name !in path
    requires IsValue(e, original, name, config)
    ensures Resolving(e, original, procs[name := config], state[name := Resolved], path)
  {
    LinkPrefix(original, path, name);
    hide IsValue, IsLink;
    assert forall n :: n in path + [name] <==> n in path || n == name;
  }

  class Resolver {
    const e: Engine
    ghost const original: Configs
    var procs: Configs
    var state: map<Name, VisitState>

    function StateOf(n: Name): VisitState
      reads this
    {
      VisitOf(state, n)
    }

    ghost predicate Ok(path: seq<Name>)
      reads this
    {
      Resolving(e, original, procs, state, path)
    }

    ghost function Unvisiteds(): set<Name>
      reads this
    {
      set n | n in original && StateOf(n) == Unvisited
    }

    constructor (e: Engine, p: Configs)
      ensures Ok([]) && original == p && this.e == e
    {
      this.e, original, procs, state := e, p, p, map[];
    }

    /** Beginning to resolve a process that extends another. */
    lemma LinkGrows(path: seq<Name>, name: Name, parentName: Name)
      requires IsLink(original, path + [name]) && Inherits(original, name, parentName) && parentName in original
      ensures IsLink(original, path + [name] + [parentName])
    {
      var c := path + [name] + [parentName];
      forall i | 0 <= i < |c| - 1 ensures Inherits(original, c[i], c[i + 1]) {
        if i < |path| { assert Inherits(original, (path + [name])[i], (path + [name])[i + 1]); }
      }
    }

    method Resolve(name: Name, ghost path: seq<Name>) returns (ok: bool)
      requires Ok(path) && name in original && IsLink(original, path + [name])
      modifies this
      ensures ok ==> Ok(path) && StateOf(name) == Resolved && Advanced()
      ensures !ok ==> !HasValue(e, original, name)
      decreases Unvisiteds(), 1
    {
      match StateOf(name) {
        case Resolved => return true;
        case InProgress =>
          NoChainInCycle(original, path, name);
          return false;
        case Unvisited =>
      }
      var proc := procs[name];
      if proc.extendsName == "" {
        MarkRoot(name, path);
        return true;
      }
      var parentName := proc.extendsName;
      assert Inherits(original, name, parentName);
      if parentName == name {
        assert IsLink(original, [name] + [name]);
        NoChainInCycle(original, [name], name);
        return false;
      }
      if parentName !in procs {
        NoChainToNothing(original, name, parentName);
        return false;
      }
      ok := ResolveFrom(name, parentName, path);
    }

    /** The parent first, then what derives from it. */
    method ResolveFrom(name: Name, parentName: Name, ghost path: seq<Name>) returns (ok: bool)
      requires Ok(path) && name in original && StateOf(name) == Unvisited && IsLink(original, path + [name])
      requires Inherits(original, name, parentName) && parentName in original && name !in path
      modifies this
      ensures ok ==> Ok(path) && StateOf(name) == Resolved && Advanced()
      ensures !ok ==> !HasValue(e, original, name)
      decreases Unvisiteds(), 0
    {
      hide Ok, IsLink, HasValue;
      Begin(name, path);
      LinkGrows(path, name, parentName);
      ok := Resolve(parentName, path + [name]);
      if !ok {
        NoValueFromParent(name, parentName);
        return false;
      }
      ok := Inherit(name, parentName, path);
    }

    lemma NoValueFromParent(name: Name, parentName: Name)
      requires Inherits(original, name, parentName) && !HasValue(e, original, parentName)
      ensures !HasValue(e, original, name)
    {
      if HasValue(e, original, name) { ValueFromParent(e, original, name, parentName); }
    }

    lemma ResultIsFold()
      requires Ok([]) && forall n :: n in original ==> StateOf(n) == Resolved
      ensures forall n :: n in original ==> HasValue(e, original, n)
      ensures forall n, w :: n in original && IsChain(original, n, w) ==>
                procs[n].extendsName == "" && Fold(e, original, w) == Some(procs[n].body)
    {
      forall n | n in original
        ensures HasValue(e, original, n)
        ensures forall w :: IsChain(original, n, w) ==>
                  procs[n].extendsName == "" && Fold(e, original, w) == Some(procs[n].body)
      {
        assert IsValue(e, original, n, procs[n]);
        var v :| IsChain(original, n, v) && Fold(e, original, v) == Some(procs[n].body);
        forall w | IsChain(original, n, w) ensures w == v {
          ChainUnique(original, n, v, w);
        }
      }
    }

    method ResolveAll(names: seq<Name>) returns (ok: bool)
      requires Ok([]) && forall n :: n in names <==> n in original
      modifies this
      ensures ok ==> Ok([]) && forall n :: n in original ==> StateOf(n) == Resolved
      ensures !ok ==> exists n :: n in original && !HasValue(e, original, n)
    {
      hide Ok, IsLink, HasValue, Unvisiteds;
      for i := 0 to |names|
        invariant Ok([]) && forall n :: n in names[..i] ==> StateOf(n) == Resolved
      {
        assert names[i] in names && names[..i + 1] == names[..i] + [names[i]];
        SingleLink(original, names[i]);
        ok := Resolve(names[i], []);
        if !ok {
          return false;
        }
      }
      assert names[..|names|] == names;
      ok := true;
    }

    /** Nothing that was resolved or in progress is unvisited again. */
    twostate predicate Advanced()
      reads this
    {
      && Unvisiteds() <= old(Unvisiteds())
      && (forall n :: n in original && old(StateOf(n)) == Resolved ==> StateOf(n) == Resolved)
    }

    method MarkRoot(name: Name, ghost path: seq<Name>)
      requires Ok(path) && name in original && StateOf(name) == Unvisited && procs[name].extendsName == ""
      modifies `state
      ensures Ok(path) && StateOf(name) == Resolved && Advanced()
    {
      assert IsChain(original, name, [name]) && Fold(e, original, [name]) == Some(procs[name].body);
      assert IsValue(e, original, name, procs[name]);
      hide IsValue, IsLink;
      state := state[name := Resolved];
    }

    method Begin(name: Name, ghost path: seq<Name>)
      requires Ok(path) && name in original && StateOf(name) == Unvisited && IsLink(original, path + [name])
      modifies `state
      ensures Ok(path + [name]) && Advanced() && Unvisiteds() < old(Unvisiteds())
    {
      hide IsValue;
      state := state[name := InProgress];
      assert name in old(Unvisiteds()) && name !in Unvisiteds();
    }

    /** The parent is resolved: a copy of it, with the child merged on top, replaces the child. */
    method Inherit(name: Name, parentName: Name, ghost path: seq<Name>) returns (ok: bool)
      requires Ok(path + [name]) && name in original && name !in path
      requires StateOf(parentName) == Resolved && Inherits(original, name, parentName) && parentName in original
      modifies this
      ensures ok ==> Ok(path) && StateOf(name) == Resolved && Advanced()
      ensures !ok ==> !HasValue(e, original, name)
    {
      var derived := Derive(e, procs[parentName].body, procs[name].body);
      assert IsValue(e, original, parentName, procs[parentName]);
      ghost var w :| IsChain(original, parentName, w) && Fold(e, original, w) == Some(procs[parentName].body);
      assert name in path + [name];
      if derived.None? {
        if HasValue(e, original, name) { ValueFromParent(e, original, name, parentName); }
        return false;
      }
      ChainCons(original, name, parentName, w);
      assert Fold(e, original, [name] + w) == derived;
      hide Ok, IsLink, HasValue;
      Replace(name, derived.value, path);
      ok := true;
    }

    method Replace(name: Name, value: Body, ghost path: seq<Name>)
      requires Ok(path + [name]) && name in original && name !in path
      requires IsValue(e, original, name, Config("", value))
      modifies `procs, `state
      ensures Ok(path) && StateOf(name) == Resolved && Advanced()
    {
      Replaced(e, original, procs, state, path, name, Config("", value));
      hide Resolving, IsValue;
      procs, state := procs[name := Config("", value)], state[name := Resolved];
    }
  }

  lemma LinkPrefix(p: Configs, path: seq<Name>, n: Name)
    requires IsLink(p, path + [n])
    ensures IsLink(p, path)
  {
    forall i | 0 <= i < |path| ensures path[i] in p { assert (path + [n])[i] == path[i]; }
    forall i | 0 <= i < |path| - 1 ensures Inherits(p, path[i], path[i + 1]) {
      assert Inherits(p, (path + [n])[i], (path + [n])[i + 1]);
    }
  }

  /** Resolution succeeds exactly when the chain of every process ends at a process that extends nothing and its
      merges succeed; every process then is the fold of its chain, whatever order the map is visited in. */
  method ResolveProcessExtends(e: Engine, p: Configs) returns (r: Option<Configs>)
    ensures r.Some? <==> forall n :: n in p ==> HasValue(e, p, n)
    ensures r.Some? ==> r.value.Keys == p.Keys
    ensures r.Some? ==> forall n, w :: n in p && IsChain(p, n, w) ==>
              r.value[n].extendsName == "" && Fold(e, p, w) == Some(r.value[n].body)
  {
    var resolver := new Resolver(e, p);
    var names := Enumerate(p.Keys);
    hide IsChain, Fold, HasValue;
    var ok := resolver.ResolveAll(names);
    if !ok {
      return None;
    }
    r := Some(resolver.procs);
    resolver.ResultIsFold();
  }
}

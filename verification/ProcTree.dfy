/** The members of a process tree, found from a snapshot of the process table by a state that remembers earlier
    walks. */
module ProcTree {
  import opened Common

  type Pid = int

  datatype ProcInfo = ProcInfo(ppid: Pid, pgid: Pid, uid: nat, start: nat, stopped: bool, zombie: bool)

  type Table = map<Pid, ProcInfo>

  datatype Key = Key(pid: Pid, start: nat)

  /** What does not change during a stop: the launched process, the supervisor and its parent, the effective
      user, and whether the launched environment carries a marker. */
  datatype Context = Context(root: Pid, self: Pid, parent: Pid, euid: nat, hasMarker: bool)

  /** treeState: what a walk remembers for the next one. */
  datatype Memory = Memory(known: map<Pid, nat>, marked: map<Key, bool>, rootStart: Option<nat>)

  // ----- What a walk is to find -----

  predicate Excluded(c: Context, pid: Pid) {
    pid <= 1 || pid == c.self || pid == c.parent
  }

  /** A process that can be a member, and whose children then are members too. */
  predicate Eligible(c: Context, procs: Table, pid: Pid) {
    pid in procs && !procs[pid].zombie && !Excluded(c, pid)
  }

  /** The launched process itself, not another one that got its number. */
  predicate IsRoot(c: Context, rootStart: Option<nat>, procs: Table) {
    c.root in procs && (rootStart == None || rootStart.value == procs[c.root].start)
  }

  function RootSeeds(c: Context, rootStart: Option<nat>, procs: Table): set<Pid> {
    if !IsRoot(c, rootStart, procs) then {}
    else {c.root} + if procs[c.root].pgid == c.root then set x | x in procs && procs[x].pgid == c.root else {}
  }

  predicate StillKnown(known: map<Pid, nat>, procs: Table, pid: Pid) {
    pid in known && pid in procs && procs[pid].start == known[pid]
  }

  /** Whose environment is looked at for the marker. */
  predicate Scanned(c: Context, procs: Table, pid: Pid) {
    c.hasMarker && pid in procs && procs[pid].uid == c.euid && !procs[pid].zombie && pid != c.self && pid != c.parent
  }

  predicate IsMarked(marked: map<Key, bool>, procs: Table, carriers: set<Pid>, pid: Pid)
    requires pid in procs
  {
    var key := Key(pid, procs[pid].start);
    if key in marked then marked[key] else pid in carriers
  }

  function Seeds(c: Context, mem: Memory, procs: Table, carriers: set<Pid>): set<Pid> {
    RootSeeds(c, mem.rootStart, procs)
    + (set x | x in procs && StillKnown(mem.known, procs, x))
    + (set x | x in procs && Scanned(c, procs, x) && IsMarked(mem.marked, procs, carriers, x))
  }

  /** A line of descent through eligible processes, from a seed. */
  ghost predicate IsLine(c: Context, procs: Table, seeds: set<Pid>, w: seq<Pid>) {
    && |w| > 0 && w[0] in seeds
    && (forall i :: 0 <= i < |w| ==> Eligible(c, procs, w[i]))
    && (forall i :: 0 < i < |w| ==> procs[w[i]].ppid == w[i - 1])
  }

  ghost predicate IsMember(c: Context, procs: Table, seeds: set<Pid>, x: Pid) {
    exists w :: IsLine(c, procs, seeds, w) && w[|w| - 1] == x
  }

  lemma SeedIsMember(c: Context, procs: Table, seeds: set<Pid>, x: Pid)
    requires x in seeds && Eligible(c, procs, x)
    ensures IsMember(c, procs, seeds, x)
  {
    assert IsLine(c, procs, seeds, [x]);
  }

  lemma ChildIsMember(c: Context, procs: Table, seeds: set<Pid>, x: Pid)
    requires Eligible(c, procs, x) && IsMember(c, procs, seeds, procs[x].ppid)
    ensures IsMember(c, procs, seeds, x)
  {
    var w :| IsLine(c, procs, seeds, w) && w[|w| - 1] == procs[x].ppid;
    assert IsLine(c, procs, seeds, w + [x]);
  }

  /** A set that holds the eligible seeds and is closed under eligible children holds every member. */
  lemma {:induction false} MembersInside(c: Context, procs: Table, seeds: set<Pid>, inside: set<Pid>, w: seq<Pid>)
    requires forall x :: x in seeds && Eligible(c, procs, x) ==> x in inside
    requires forall x :: Eligible(c, procs, x) && procs[x].ppid in inside ==> x in inside
    requires IsLine(c, procs, seeds, w)
    ensures w[|w| - 1] in inside
    decreases |w|
  {
    if |w| > 1 {
      MembersInside(c, procs, seeds, inside, w[..|w| - 1]);
      assert w[|w| - 2] in inside;
    }
  }

  /** A walk's memory afterwards: members are known by their start token, and what is gone is forgotten. */
  ghost predicate Remembers(c: Context, mem: Memory, procs: Table, carriers: set<Pid>, members: set<Pid>,
                            mem': Memory) {
    && (forall x :: x in mem'.known <==> x in members || StillKnown(mem.known, procs, x))
    && (forall x :: x in mem'.known ==> x in procs && mem'.known[x] == procs[x].start)
    && mem'.rootStart == (if IsRoot(c, mem.rootStart, procs) then Some(procs[c.root].start) else mem.rootStart)
    && (forall k :: k in mem'.marked && k.pid in procs && procs[k.pid].start == k.start ==>
          mem'.marked[k] == IsMarked(mem.marked, procs, carriers, k.pid))
    && (forall k :: k in mem'.marked && !(k.pid in procs && procs[k.pid].start == k.start) ==>
          k in mem.marked && mem'.marked[k] == mem.marked[k])
  }

  /** A member that survives, whoever its parent is now, is a member again in the next walk. */
  lemma SurvivorsStayMembers(c: Context, mem: Memory, procs: Table, carriers: set<Pid>, members: set<Pid>,
                             mem': Memory, later: Table, carriers': set<Pid>, x: Pid)
    requires members <= procs.Keys && Remembers(c, mem, procs, carriers, members, mem') && x in members
    requires Eligible(c, later, x) && later[x].start == procs[x].start
    ensures IsMember(c, later, Seeds(c, mem', later, carriers'), x)
  {
    assert x in mem'.known && StillKnown(mem'.known, later, x);
    SeedIsMember(c, later, Seeds(c, mem', later, carriers'), x);
  }

  /** Why a process can be at the head of a line of descent: it is the launched process, under its number since the
      first walk; it is in the group that process leads; it was a member before; or it carries the marker, as it did
      when it was first looked at, belongs to the same user and is not the supervisor or its parent. */
  ghost predicate IsOrigin(c: Context, mem: Memory, procs: Table, carriers: set<Pid>, x: Pid) {
    x in procs
    && var rootThere := c.root in procs && (mem.rootStart.None? || procs[c.root].start == mem.rootStart.value);
       || (rootThere && (x == c.root || (procs[c.root].pgid == c.root && procs[x].pgid == c.root)))
       || (x in mem.known && mem.known[x] == procs[x].start)
       || (c.hasMarker && procs[x].uid == c.euid && !procs[x].zombie && x != c.self && x != c.parent
           && if Key(x, procs[x].start) in mem.marked then mem.marked[Key(x, procs[x].start)] else x in carriers)
  }

  /** A walk finds a live process if and only if a line of live descent leads to it from such an origin. */
  lemma MembersHaveOrigin(c: Context, mem: Memory, procs: Table, carriers: set<Pid>, x: Pid)
    ensures IsMember(c, procs, Seeds(c, mem, procs, carriers), x) <==>
            exists w :: IsDescent(c, procs, w) && IsOrigin(c, mem, procs, carriers, w[0]) && w[|w| - 1] == x
  {
    var seeds := Seeds(c, mem, procs, carriers);
    assert forall y :: y in seeds <==> IsOrigin(c, mem, procs, carriers, y);
    hide Seeds, IsOrigin;
    if IsMember(c, procs, seeds, x) {
      var w :| IsLine(c, procs, seeds, w) && w[|w| - 1] == x;
      assert IsDescent(c, procs, w);
    }
    if w :| IsDescent(c, procs, w) && IsOrigin(c, mem, procs, carriers, w[0]) && w[|w| - 1] == x {
      assert IsLine(c, procs, seeds, w);
    }
  }

  /** From parent to child, all of them alive, and none the supervisor, its parent or process 1. */
  ghost predicate IsDescent(c: Context, procs: Table, w: seq<Pid>) {
    && |w| > 0
    && (forall i :: 0 <= i < |w| ==> w[i] in procs && !procs[w[i]].zombie)
    && (forall i :: 0 <= i < |w| ==> w[i] > 1 && w[i] != c.self && w[i] != c.parent)
    && (forall i :: 0 < i < |w| ==> procs[w[i]].ppid == w[i - 1])
  }

  /** In particular every live process of the group that the launched process leads is found, whoever its parent is. */
  lemma GroupIsFound(c: Context, mem: Memory, procs: Table, carriers: set<Pid>, x: Pid)
    requires c.root in procs && procs[c.root].pgid == c.root
    requires mem.rootStart.Some? ==> procs[c.root].start == mem.rootStart.value
    requires x in procs && procs[x].pgid == c.root && !procs[x].zombie && x > 1 && x != c.self && x != c.parent
    ensures IsMember(c, procs, Seeds(c, mem, procs, carriers), x)
  {
    SeedIsMember(c, procs, Seeds(c, mem, procs, carriers), x);
  }

  /** The answers kept for processes that are still there are those given before, or fresh ones. */
  ghost predicate CacheOk(before: map<Key, bool>, procs: Table, carriers: set<Pid>, marked: map<Key, bool>) {
    && (forall k :: k in marked ==> k.pid in procs && procs[k.pid].start == k.start)
    && (forall k :: k in marked ==> marked[k] == IsMarked(before, procs, carriers, k.pid))
    && (forall k :: k in before && k.pid in procs && procs[k.pid].start == k.start ==> k in marked)
  }

  // ----- The walk -----

  function ChildrenIn(children: map<Pid, seq<Pid>>, pid: Pid): seq<Pid> {
    if pid in children then children[pid] else []
  }

  method ChildLists(procs: Table) returns (children: map<Pid, seq<Pid>>)
    ensures forall pid, x :: x in ChildrenIn(children, pid) <==> x in procs && procs[x].ppid == pid
  {
    children := map[];
    var pids := Enumerate(procs.Keys);
    for i := 0 to |pids|
      invariant forall pid, x :: x in ChildrenIn(children, pid) <==> x in pids[..i] && procs[x].ppid == pid
    {
      var pid := pids[i];
      assert pid in pids && pids[..i + 1] == pids[..i] + [pid];
      children := AddChild(children, procs[pid].ppid, pid);
    }
    assert pids[..|pids|] == pids;
  }

  function AddChild(children: map<Pid, seq<Pid>>, ppid: Pid, pid: Pid): (r: map<Pid, seq<Pid>>)
    ensures forall q, x :: x in ChildrenIn(r, q) <==> x in ChildrenIn(children, q) || (q == ppid && x == pid)
  {
    var r := children[ppid := ChildrenIn(children, ppid) + [pid]];
    assert forall q :: ChildrenIn(r, q) == ChildrenIn(children, q) + if q == ppid then [pid] else [];
    r
  }

  /** The members found so far: visited and eligible, once each, and all of them in the tree. */
  ghost predicate MembersOk(c: Context, procs: Table, seeds: set<Pid>, members: seq<Pid>, visited: set<Pid>) {
    && Distinct(members)
    && (forall x :: x in members <==> x in visited && Eligible(c, procs, x))
    && (forall x :: x in members ==> IsMember(c, procs, seeds, x))
  }

  /** The worklist holds seeds and children of members, and whatever of these is not a member yet. */
  ghost predicate ListOk(c: Context, procs: Table, seeds: set<Pid>, list: seq<Pid>, members: seq<Pid>) {
    && (forall x :: x in list ==> x in seeds || (x in procs && procs[x].ppid in members))
    && (forall x :: x in seeds && Eligible(c, procs, x) ==> x in list || x in members)
    && (forall x :: Eligible(c, procs, x) && procs[x].ppid in members ==> x in list || x in members)
  }

  ghost predicate WorkOk(c: Context, procs: Table, seeds: set<Pid>, list: seq<Pid>, members: seq<Pid>,
                         visited: set<Pid>) {
    MembersOk(c, procs, seeds, members, visited) && ListOk(c, procs, seeds, list, members)
  }

  /** Taking a pid off the list that is excluded, seen already, or no live process. */
  lemma DropSeen(c: Context, procs: Table, seeds: set<Pid>, list: seq<Pid>, members: seq<Pid>, visited: set<Pid>,
                 pid: Pid)
    requires WorkOk(c, procs, seeds, list + [pid], members, visited)
    ensures pid in visited || Excluded(c, pid) ==> WorkOk(c, procs, seeds, list, members, visited)
    ensures pid !in procs || procs[pid].zombie ==> WorkOk(c, procs, seeds, list, members, visited + {pid})
  {
    hide IsMember;
    assert forall x :: x in list + [pid] <==> x in list || x == pid;
  }

  /** Taking a pid off the list that is a new member. */
  lemma AddMember(c: Context, procs: Table, children: map<Pid, seq<Pid>>, seeds: set<Pid>, list: seq<Pid>,
                  members: seq<Pid>, visited: set<Pid>, pid: Pid)
    requires WorkOk(c, procs, seeds, list + [pid], members, visited) && Eligible(c, procs, pid) && pid !in visited
    requires forall p, x :: x in ChildrenIn(children, p) <==> x in procs && procs[x].ppid == p
    ensures WorkOk(c, procs, seeds, list + ChildrenIn(children, pid), members + [pid], visited + {pid})
  {
    assert pid in list + [pid];
    if pid in seeds {
      SeedIsMember(c, procs, seeds, pid);
    } else {
      ChildIsMember(c, procs, seeds, pid);
    }
    hide MembersOk, ListOk, Eligible, IsMember;
    AddToMembers(c, procs, seeds, members, visited, pid);
    AddToList(c, procs, seeds, list, ChildrenIn(children, pid), members, pid);
  }

  lemma AddToMembers(c: Context, procs: Table, seeds: set<Pid>, members: seq<Pid>, visited: set<Pid>, pid: Pid)
    requires MembersOk(c, procs, seeds, members, visited) && Eligible(c, procs, pid) && pid !in visited
    requires IsMember(c, procs, seeds, pid)
    ensures MembersOk(c, procs, seeds, members + [pid], visited + {pid})
  {
    hide IsMember, Eligible;
    DistinctAppend(members, pid);
    assert forall x :: x in members + [pid] <==> x in members || x == pid;
  }

  lemma AddToList(c: Context, procs: Table, seeds: set<Pid>, list: seq<Pid>, children: seq<Pid>, members: seq<Pid>,
                  pid: Pid)
    requires ListOk(c, procs, seeds, list + [pid], members)
    requires forall x :: x in children <==> x in procs && procs[x].ppid == pid
    ensures ListOk(c, procs, seeds, list + children, members + [pid])
  {
    assert forall x :: x in list + [pid] <==> x in list || x == pid;
    assert forall x :: x in list + children <==> x in list || x in children;
    assert forall x :: x in members + [pid] <==> x in members || x == pid;
  }

  // ----- The walk and its memory -----

  class TreeState {
    var known: map<Pid, nat>
    var marked: map<Key, bool>
    var rootStart: Option<nat>

    constructor ()
      ensures Mem() == Memory(map[], map[], None)
    {
      known, marked, rootStart := map[], map[], None;
    }

    function Mem(): Memory
      reads this
    {
      Memory(known, marked, rootStart)
    }

    /** collect: exactly the members, each once, and the memory of having found them. */
    method Collect(c: Context, procs: Table, carriers: set<Pid>) returns (members: seq<Pid>)
      modifies this
      ensures Distinct(members)
      ensures forall x :: x in members <==> IsMember(c, procs, Seeds(c, old(Mem()), procs, carriers), x)
      ensures forall x :: x in members ==> Eligible(c, procs, x)
      ensures Remembers(c, old(Mem()), procs, carriers, (set x | x in members), Mem())
    {
      hide StillKnown, IsMarked, Scanned, IsRoot, RootSeeds, IsMember, Eligible, ChildrenIn;
      var children := ChildLists(procs);
      var fromRoot := SeedFromRoot(c, procs);
      var fromKnown := SeedFromKnown(procs);
      var fromMarker := SeedFromMarker(c, procs, carriers);
      ghost var seeds := Seeds(c, old(Mem()), procs, carriers);
      assert forall x :: x in fromRoot + fromKnown + fromMarker <==> x in seeds;
      hide Seeds;
      members := Descend(c, procs, children, fromRoot + fromKnown + fromMarker, seeds);
    }

    method SeedFromRoot(c: Context, procs: Table) returns (seeds: seq<Pid>)
      modifies `rootStart
      ensures forall x :: x in seeds <==> x in RootSeeds(c, old(rootStart), procs)
      ensures rootStart == if IsRoot(c, old(rootStart), procs) then Some(procs[c.root].start) else old(rootStart)
    {
      seeds := [];
      if c.root in procs && (rootStart == None || procs[c.root].start == rootStart.value) {
        rootStart := Some(procs[c.root].start);
        seeds := [c.root];
        if procs[c.root].pgid == c.root {
          var group := Enumerate(set x | x in procs && procs[x].pgid == c.root);
          seeds := seeds + group;
        }
      }
    }

    method SeedFromKnown(procs: Table) returns (seeds: seq<Pid>)
      modifies `known
      ensures forall x :: x in seeds <==> StillKnown(old(known), procs, x)
      ensures forall x :: x in known <==> StillKnown(old(known), procs, x)
      ensures forall x :: x in known ==> x in procs && known[x] == procs[x].start
    {
      seeds := [];
      var pids := Enumerate(known.Keys);
      for i := 0 to |pids|
        invariant forall x :: x in seeds <==> x in pids[..i] && StillKnown(old(known), procs, x)
        invariant forall x :: x in known <==> x in old(known) && (x in pids[..i] ==> StillKnown(old(known), procs, x))
        invariant forall x :: x in known ==> known[x] == old(known)[x]
      {
        var pid := pids[i];
        assert pid in pids && pid !in pids[..i] && pids[..i + 1] == pids[..i] + [pid];
        if pid in procs && procs[pid].start == known[pid] {
          seeds := seeds + [pid];
        } else {
          known := known - {pid};
        }
      }
      assert pids[..|pids|] == pids;
    }

    /** The cached answer for a process, or a fresh look at its environment. */
    method CarriesMarker(procs: Table, carriers: set<Pid>, pid: Pid, ghost before: map<Key, bool>)
      returns (carries: bool)
      requires pid in procs && CacheOk(before, procs, carriers, marked)
      modifies `marked
      ensures carries == IsMarked(before, procs, carriers, pid) && CacheOk(before, procs, carriers, marked)
    {
      var key := Key(pid, procs[pid].start);
      if key !in marked {
        marked := marked[key := pid in carriers];
      }
      carries := marked[key];
    }

    method SeedFromMarker(c: Context, procs: Table, carriers: set<Pid>) returns (seeds: seq<Pid>)
      modifies `marked
      ensures forall x :: x in seeds <==>
                x in procs && Scanned(c, procs, x) && IsMarked(old(marked), procs, carriers, x)
      ensures forall k :: k in marked && k.pid in procs && procs[k.pid].start == k.start ==>
                marked[k] == IsMarked(old(marked), procs, carriers, k.pid)
      ensures forall k :: k in marked && !(k.pid in procs && procs[k.pid].start == k.start) ==>
                k in old(marked) && marked[k] == old(marked)[k]
    {
      seeds := [];
      if !c.hasMarker {
        return;
      }
      marked := map k | k in marked && k.pid in procs && procs[k.pid].start == k.start :: marked[k];
      var pids := Enumerate(procs.Keys);
      for i := 0 to |pids|
        invariant forall x :: x in seeds <==>
                    x in pids[..i] && Scanned(c, procs, x) && IsMarked(old(marked), procs, carriers, x)
        invariant CacheOk(old(marked), procs, carriers, marked)
      {
        var pid := pids[i];
        assert pid in pids && pids[..i + 1] == pids[..i] + [pid];
        if Scanned(c, procs, pid) {
          var carries := CarriesMarker(procs, carriers, pid, old(marked));
          if carries {
            seeds := seeds + [pid];
          }
        }
      }
      assert pids[..|pids|] == pids;
    }

    /** The worklist loop. */
    method Descend(c: Context, procs: Table, children: map<Pid, seq<Pid>>, start: seq<Pid>, ghost seeds: set<Pid>)
      returns (members: seq<Pid>)
      requires forall pid, x :: x in ChildrenIn(children, pid) <==> x in procs && procs[x].ppid == pid
      requires forall x :: x in start <==> x in seeds
      requires forall x :: x in known ==> x in procs && known[x] == procs[x].start
      modifies `known
      ensures Distinct(members) && forall x :: x in members <==> IsMember(c, procs, seeds, x)
      ensures forall x :: x in members ==> Eligible(c, procs, x)
      ensures forall x :: x in known <==> x in members || x in old(known)
      ensures forall x :: x in known ==> x in procs && known[x] == procs[x].start
    {
      members := [];
      var list := start;
      var visited: set<Pid> := {};
      while |list| > 0
        invariant WorkOk(c, procs, seeds, list, members, visited)
        invariant forall x :: x in known <==> x in members || x in old(known)
        invariant forall x :: x in known ==> x in procs && known[x] == procs[x].start
        decreases procs.Keys - visited, |list|
      {
        members, list, visited := Visit(c, procs, children, list, seeds, members, visited);
      }
      forall x | IsMember(c, procs, seeds, x) ensures x in members {
        var w :| IsLine(c, procs, seeds, w) && w[|w| - 1] == x;
        MembersInside(c, procs, seeds, (set y | y in members), w);
      }
    }

    /** One round of the worklist loop. */
    method Visit(c: Context, procs: Table, children: map<Pid, seq<Pid>>, list0: seq<Pid>, ghost seeds: set<Pid>,
                 members0: seq<Pid>, visited0: set<Pid>)
      returns (members: seq<Pid>, list: seq<Pid>, visited: set<Pid>)
      requires |list0| > 0 && WorkOk(c, procs, seeds, list0, members0, visited0)
      requires forall pid, x :: x in ChildrenIn(children, pid) <==> x in procs && procs[x].ppid == pid
      modifies `known
      ensures WorkOk(c, procs, seeds, list, members, visited)
      ensures procs.Keys - visited < procs.Keys - visited0
              || (procs.Keys - visited == procs.Keys - visited0 && |list| < |list0|)
      ensures (members == members0 && known == old(known))
              || exists x :: Eligible(c, procs, x) && members == members0 + [x]
                             && known == old(known)[x := procs[x].start]
    {
      members, list, visited := members0, list0, visited0;
      var pid := list[|list| - 1];
      list := list[..|list| - 1];
      assert list0 == list + [pid];
      DropSeen(c, procs, seeds, list, members, visited, pid);
      hide WorkOk, IsMember;
      if pid in visited || pid <= 1 || pid == c.self || pid == c.parent {
        return;
      }
      visited := visited + {pid};
      if pid !in procs || procs[pid].zombie {
        return;
      }
      AddMember(c, procs, children, seeds, list, members, visited0, pid);
      known := known[pid := procs[pid].start];
      members := members + [pid];
      list := list + ChildrenIn(children, pid);
      assert pid in procs.Keys - visited0;
    }
  }
}

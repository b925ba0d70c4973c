/** Scaling a process: replicas are added or removed, and those that stay are renamed in every map that is keyed
    by replica name. */
module Scaling {
  import opened Common
  import opened Replicas

  /** A running process object, by its identity. */
  type Id = nat

  /** `launches` says that the process is started when it is added, `watches` that its files are watched. */
  datatype Replica = Replica(name: Name, replicaName: Name, replicaNum: nat, replicas: int, config: int,
                             launches: bool, watches: bool)

  type Table = map<Name, Replica>

  predicate Own(t: Table, name: Name, k: Name) {
    k in t && t[k].name == name
  }

  /** k is the key of replica i. */
  predicate Holds(t: Table, name: Name, k: Name, i: nat) {
    Own(t, name, k) && t[k].replicaNum == i
  }

  /** Exactly replicas 0 to m - 1 of a process, each under the name it has among m. */
  ghost predicate Scaled(width: WidthOf, t: Table, name: Name, m: nat) {
    && (forall k :: Own(t, name, k) ==>
          t[k].replicaNum < m && t[k].replicas == m
          && t[k].replicaName == k == ReplicaName(width, name, m, t[k].replicaNum))
    && (forall i: nat :: i < m ==> Holds(t, name, ReplicaName(width, name, m, i), i))
  }

  /** No other process has a name that one of n replicas would get. */
  ghost predicate NoClash(width: WidthOf, t: Table, name: Name, n: nat) {
    forall i: nat :: i < n && ReplicaName(width, name, n, i) in t ==> Own(t, name, ReplicaName(width, name, n, i))
  }

  /** Every replica has its old name or its new one. */
  ghost predicate Named(width: WidthOf, t: Table, name: Name, m: nat, n: nat) {
    forall k :: Own(t, name, k) ==>
      && t[k].replicaNum < n && t[k].replicaName == k
      && (k == ReplicaName(width, name, n, t[k].replicaNum)
          || (t[k].replicaNum < m && k == ReplicaName(width, name, m, t[k].replicaNum)))
  }

  ghost predicate NumberedOnce(t: Table, name: Name) {
    forall j, k :: Own(t, name, j) && Own(t, name, k) && t[j].replicaNum == t[k].replicaNum ==> j == k
  }

  ghost predicate HasNumber(t: Table, name: Name, i: nat) {
    exists k :: Holds(t, name, k, i)
  }

  ghost predicate Complete(t: Table, name: Name, n: nat) {
    forall i: nat :: i < n ==> HasNumber(t, name, i)
  }

  /** On the way from m replicas to n: numbers 0 to n - 1, each once, under the old name or the new. */
  ghost predicate Between(width: WidthOf, t: Table, name: Name, m: nat, n: nat) {
    Named(width, t, name, m, n) && NumberedOnce(t, name) && Complete(t, name, n)
  }

  /** The processes of other names are as they were. */
  ghost predicate OthersSame(t: Table, u: Table, name: Name) {
    forall k :: (k in t && t[k].name != name <==> k in u && u[k].name != name)
                && (k in t && t[k].name != name ==> u[k] == t[k])
  }

  /** When all replicas have their new name and number of replicas, the scaling is done. */
  lemma BetweenDone(width: WidthOf, t: Table, name: Name, m: nat, n: nat)
    requires WideEnough(width) && Between(width, t, name, m, n)
    requires forall k :: Own(t, name, k) ==> t[k].replicas == n && k == ReplicaName(width, name, n, t[k].replicaNum)
    ensures Scaled(width, t, name, n)
  {
    forall i: nat | i < n
      ensures Holds(t, name, ReplicaName(width, name, n, i), i)
    {
      assert HasNumber(t, name, i);
    }
  }

  /** A replica that still has its old name can take its new one: nobody has it. */
  lemma NewNameIsFree(width: WidthOf, t: Table, name: Name, m: nat, n: nat, k: Name)
    requires WideEnough(width) && Between(width, t, name, m, n) && NoClash(width, t, name, n)
    requires Own(t, name, k) && k != ReplicaName(width, name, n, t[k].replicaNum)
    ensures ReplicaName(width, name, n, t[k].replicaNum) !in t
  {
    var newName := ReplicaName(width, name, n, t[k].replicaNum);
    if newName in t {
      assert Own(t, name, newName);
      var i := t[newName].replicaNum;
      if newName == ReplicaName(width, name, n, i) {
        ReplicaNamesDiffer(width, name, n, n, t[k].replicaNum, i);
      } else {
        ReplicaNamesDiffer(width, name, n, m, t[k].replicaNum, i);
      }
    }
  }

  function Renamed(t: Table, k: Name, newName: Name): Table
    requires k in t
  {
    (t - {k})[newName := t[k].(replicaName := newName)]
  }

  lemma RenameKeepsBetween(width: WidthOf, t: Table, name: Name, m: nat, n: nat, k: Name)
    requires WideEnough(width) && Between(width, t, name, m, n) && NoClash(width, t, name, n)
    requires Own(t, name, k) && k != ReplicaName(width, name, n, t[k].replicaNum)
    ensures var u := Renamed(t, k, ReplicaName(width, name, n, t[k].replicaNum));
            Between(width, u, name, m, n) && NoClash(width, u, name, n) && OthersSame(t, u, name)
  {
    NewNameIsFree(width, t, name, m, n, k);
    hide ReplicaName;
    var newName := ReplicaName(width, name, n, t[k].replicaNum);
    var u := Renamed(t, k, newName);
    RenamedTable(t, k, newName);
    RenameKeepsNumbers(t, name, k, newName, n);
    hide Renamed, NumberedOnce, Complete, Holds, HasNumber;
    assert Named(width, u, name, m, n);
  }

  lemma RenameKeepsNumbers(t: Table, name: Name, k: Name, newName: Name, n: nat)
    requires Own(t, name, k) && newName !in t && NumberedOnce(t, name) && Complete(t, name, n)
    ensures NumberedOnce(Renamed(t, k, newName), name) && Complete(Renamed(t, k, newName), name, n)
  {
    var u := Renamed(t, k, newName);
    RenamedTable(t, k, newName);
    forall i: nat | i < n ensures HasNumber(u, name, i) {
      assert HasNumber(t, name, i);
      var x :| Holds(t, name, x, i);
      assert Holds(u, name, if x == k then newName else x, i);
    }
  }

  lemma RenamedTable(t: Table, k: Name, newName: Name)
    requires k in t && newName !in t
    ensures var u := Renamed(t, k, newName);
            forall x :: (x in u <==> x == newName || (x in t && x != k))
                        && (x in t && x != k ==> u[x] == t[x])
    ensures Renamed(t, k, newName)[newName] == t[k].(replicaName := newName)
  {
  }

  // ----- Running processes -----

  type Running = map<Name, Id>

  predicate SameEntry(run0: Running, k0: Name, run: Running, k: Name) {
    (k0 in run0 <==> k in run) && (k0 in run0 ==> run[k] == run0[k0])
  }

  /** Replica number i, under k0 before and k now, is the same process, running or not. */
  ghost predicate SameSlot(t0: Table, run0: Running, k0: Name, t: Table, run: Running, k: Name)
    requires k0 in t0 && k in t
  {
    SameEntry(run0, k0, run, k) && t[k].config == t0[k0].config && t[k].launches == t0[k0].launches
  }

  ghost predicate OldSlots(t0: Table, run0: Running, name: Name, t: Table, run: Running) {
    forall i, k0, k :: Holds(t0, name, k0, i) && Holds(t, name, k, i) ==> SameSlot(t0, run0, k0, t, run, k)
  }

  /** A new replica is as the template says, and runs, as a new object, exactly if that says it should. */
  ghost predicate NewSlot(template: Replica, firstId: Id, t: Table, run: Running, k: Name)
    requires k in t
  {
    && (k in run <==> template.launches) && (k in run ==> run[k] >= firstId)
    && t[k].config == template.config && t[k].launches == template.launches
  }

  ghost predicate NewSlots(t0: Table, template: Replica, firstId: Id, t: Table, run: Running) {
    forall k :: Own(t, template.name, k) && !HasNumber(t0, template.name, t[k].replicaNum)
                ==> NewSlot(template, firstId, t, run, k)
  }

  ghost predicate OtherSlots(t0: Table, run0: Running, name: Name, run: Running) {
    forall k :: k in t0 && t0[k].name != name ==> SameEntry(run0, k, run, k)
  }

  /** Whoever ran as a replica that stays still runs as that replica, processes of other names run as they did,
      and only defined processes run. */
  ghost predicate SlotsKept(t0: Table, run0: Running, template: Replica, firstId: Id, t: Table, run: Running) {
    && run.Keys <= t.Keys
    && OldSlots(t0, run0, template.name, t, run)
    && NewSlots(t0, template, firstId, t, run)
    && OtherSlots(t0, run0, template.name, run)
  }

  function Rekeyed(run: Running, k: Name, newName: Name): Running {
    if k in run then (run - {k})[newName := run[k]] else run
  }

  lemma RekeyedEntries(run: Running, k: Name, newName: Name)
    requires newName !in run
    ensures SameEntry(run, k, Rekeyed(run, k, newName), newName)
    ensures forall x :: x != k && x != newName ==> SameEntry(run, x, Rekeyed(run, k, newName), x)
    ensures k != newName ==> k !in Rekeyed(run, k, newName)
  {
  }

  lemma RenameKeepsSlots(t0: Table, run0: Running, template: Replica, firstId: Id, t: Table, run: Running,
                         k: Name, newName: Name)
    requires SlotsKept(t0, run0, template, firstId, t, run) && OthersSame(t0, t, template.name)
    requires Own(t, template.name, k) && newName !in t
    ensures SlotsKept(t0, run0, template, firstId, Renamed(t, k, newName), Rekeyed(run, k, newName))
  {
    RenamedTable(t, k, newName);
    RekeyedEntries(run, k, newName);
    RenameKeepsOld(t0, run0, template.name, t, run, k, newName);
    RenameKeepsNew(t0, template, firstId, t, run, k, newName);
    hide OldSlots, NewSlots;
    forall x | x in t0 && t0[x].name != template.name ensures SameEntry(run0, x, Rekeyed(run, k, newName), x) {
      assert x in t && t[x].name != template.name;
    }
  }

  lemma RenameKeepsOld(t0: Table, run0: Running, name: Name, t: Table, run: Running, k: Name, newName: Name)
    requires OldSlots(t0, run0, name, t, run) && k in t && newName !in t && run.Keys <= t.Keys
    ensures OldSlots(t0, run0, name, Renamed(t, k, newName), Rekeyed(run, k, newName))
  {
    var u, after := Renamed(t, k, newName), Rekeyed(run, k, newName);
    RenamedTable(t, k, newName);
    RekeyedEntries(run, k, newName);
    hide Renamed, Rekeyed;
    forall i, k0, x | Holds(t0, name, k0, i) && Holds(u, name, x, i) ensures SameSlot(t0, run0, k0, u, after, x) {
      var y := if x == newName then k else x;
      assert Holds(t, name, y, i);
      assert SameSlot(t0, run0, k0, t, run, y) && SameEntry(run, y, after, x);
    }
  }

  lemma RenameKeepsNew(t0: Table, template: Replica, firstId: Id, t: Table, run: Running, k: Name, newName: Name)
    requires NewSlots(t0, template, firstId, t, run) && k in t && newName !in t && run.Keys <= t.Keys
    ensures NewSlots(t0, template, firstId, Renamed(t, k, newName), Rekeyed(run, k, newName))
  {
    var u, after := Renamed(t, k, newName), Rekeyed(run, k, newName);
    RenamedTable(t, k, newName);
    RekeyedEntries(run, k, newName);
    hide Renamed, Rekeyed, HasNumber;
    forall x | Own(u, template.name, x) && !HasNumber(t0, template.name, u[x].replicaNum)
      ensures NewSlot(template, firstId, u, after, x)
    {
      var y := if x == newName then k else x;
      assert Own(t, template.name, y) && NewSlot(template, firstId, t, run, y) && SameEntry(run, y, after, x);
    }
  }

  /** The other maps are keyed alike: every process has its state and its log, no log is left over, and exactly
      those to be watched are. The state of a removed process stays behind. */
  ghost predicate KeyedAlike(t: Table, states: Running, logs: set<Name>, watched: set<Name>) {
    t.Keys <= states.Keys && logs == t.Keys && watched == set k | k in t && t[k].watches
  }

  lemma RenameKeepsKeys(t: Table, states: Running, logs: set<Name>, watched: set<Name>, k: Name, newName: Name)
    requires KeyedAlike(t, states, logs, watched) && k in t && newName !in t
    ensures KeyedAlike(Renamed(t, k, newName), Rekeyed(states, k, newName), logs - {k} + {newName},
                       watched - {k} + if t[k].watches then {newName} else {})
  {
    RenamedTable(t, k, newName);
  }

  class ProjectRunner {
    const width: WidthOf
    var processes: Table
    var runningProcesses: Running
    /** The state objects, by their identity. */
    var processStates: Running
    var processLogs: set<Name>
    var watched: set<Name>
    var nextId: Id

    constructor (width: WidthOf, processes: Table)
      ensures this.width == width && this.processes == processes && runningProcesses == map[]
      ensures Keyed()
    {
      this.width, this.processes := width, processes;
      runningProcesses, nextId := map[], 0;
      processStates, processLogs := map k | k in processes :: 0, processes.Keys;
      watched := set k | k in processes && processes[k].watches;
    }

    ghost predicate Keyed()
      reads this
    {
      KeyedAlike(processes, processStates, processLogs, watched)
    }

    method RemoveProcess(name: Name)
      modifies this
      ensures processes == old(processes) - {name} && runningProcesses == old(runningProcesses) - {name}
      ensures nextId == old(nextId) && (old(Keyed()) ==> Keyed())
    {
      watched := watched - {name};
      processLogs := processLogs - {name};
      processes := processes - {name};
      if name in runningProcesses {
        runningProcesses := runningProcesses - {name};
      }
    }

    method AddProcessAndRun(proc: Replica)
      modifies this
      ensures processes == old(processes)[proc.replicaName := proc] && nextId == old(nextId) + 1
      ensures runningProcesses == if proc.launches then old(runningProcesses)[proc.replicaName := old(nextId)]
                                  else old(runningProcesses)
      ensures old(Keyed()) ==> Keyed()
    {
      processStates := processStates[proc.replicaName := nextId];
      processes := processes[proc.replicaName := proc];
      processLogs := processLogs + {proc.replicaName};
      if proc.launches {
        runningProcesses := runningProcesses[proc.replicaName := nextId];
      }
      nextId := nextId + 1;
      watched := watched - {proc.replicaName} + if proc.watches then {proc.replicaName} else {};
    }

    /** Configuration, running object, state, log and watch move to the new name together. */
    method RenameProcess(name: Name, newName: Name)
      modifies this
      ensures processes == if name in old(processes) then Renamed(old(processes), name, newName) else old(processes)
      ensures runningProcesses == Rekeyed(old(runningProcesses), name, newName)
      ensures processStates == Rekeyed(old(processStates), name, newName)
      ensures processLogs == (if name in old(processLogs) then old(processLogs) - {name} + {newName}
                              else old(processLogs))
      ensures watched == old(watched) - {name} +
                             if name in old(processes) && old(processes)[name].watches then {newName} else {}
      ensures nextId == old(nextId)
      ensures old(Keyed()) && name in old(processes) && newName !in old(processes) ==> Keyed()
    {
      if Keyed() && name in processes && newName !in processes {
        RenameKeepsKeys(processes, processStates, processLogs, watched, name, newName);
      }
      hide KeyedAlike, Renamed, Rekeyed;
      RenameRunning(name, newName);
      RenameStateAndLog(name, newName);
      RenameConfig(name, newName);
    }

    method RenameRunning(name: Name, newName: Name)
      modifies `runningProcesses
      ensures runningProcesses == Rekeyed(old(runningProcesses), name, newName)
    {
      if name in runningProcesses {
        var process := runningProcesses[name];
        runningProcesses := runningProcesses - {name};
        runningProcesses := runningProcesses[newName := process];
      }
    }

    method RenameStateAndLog(name: Name, newName: Name)
      modifies `processLogs, `processStates
      ensures processStates == Rekeyed(old(processStates), name, newName)
      ensures processLogs == (if name in old(processLogs) then old(processLogs) - {name} + {newName}
                              else old(processLogs))
    {
      if name in processLogs {
        processLogs := processLogs - {name} + {newName};
      }
      if name in processStates {
        var state := processStates[name];
        processStates := processStates - {name};
        processStates := processStates[newName := state];
      }
    }

    method RenameConfig(name: Name, newName: Name)
      modifies `processes, `watched
      ensures processes == if name in old(processes) then Renamed(old(processes), name, newName) else old(processes)
      ensures watched == old(watched) - {name} +
                             if name in old(processes) && old(processes)[name].watches then {newName} else {}
    {
      watched := watched - {name};
      if name in processes {
        var procConf := processes[name].(replicaName := newName);
        processes := processes - {name};
        processes := processes[newName := procConf];
        if procConf.watches {
          watched := watched + {newName};
        }
      }
    }

    method CurrentReplicaCount(name: Name) returns (count: nat)
      ensures count == |OwnKeys(processes, name)|
    {
      count := 0;
      var keys := Enumerate(processes.Keys);
      for i := 0 to |keys|
        invariant count == |OwnAmong(processes, name, keys[..i])|
      {
        assert keys[i] !in keys[..i] && keys[..i + 1] == keys[..i] + [keys[i]];
        assert keys[i] in keys;
        OwnAmongMore(processes, name, keys[..i], keys[i]);
        if processes[keys[i]].name == name {
          count := count + 1;
        }
      }
      assert keys[..|keys|] == keys;
      assert OwnAmong(processes, name, keys) == OwnKeys(processes, name);
    }

    /** Replicas `origScale` to `scale` - 1 are added, as the template says. */
    method ScaleUp(proc: Replica, toAdd: nat, scale: nat, origScale: nat)
      requires WideEnough(width) && Scaled(width, processes, proc.name, origScale) && origScale + toAdd == scale
      requires NoClash(width, processes, proc.name, scale) && runningProcesses.Keys <= processes.Keys
      modifies this
      ensures Between(width, processes, proc.name, origScale, scale) && NoClash(width, processes, proc.name, scale)
      ensures OthersSame(old(processes), processes, proc.name)
      ensures SlotsKept(old(processes), old(runningProcesses), proc, old(nextId), processes, runningProcesses)
      ensures old(Keyed()) ==> Keyed()
    {
      hide KeyedAlike;
      StartsBetween(width, processes, runningProcesses, proc, nextId, origScale, scale);
      for i := 0 to toAdd
        invariant Growing(width, processes, proc.name, origScale, scale, origScale + i)
        invariant NoClash(width, processes, proc.name, scale) && OthersSame(old(processes), processes, proc.name)
        invariant SlotsKept(old(processes), old(runningProcesses), proc, old(nextId), processes, runningProcesses)
        invariant old(nextId) <= nextId && (old(Keyed()) ==> Keyed())
      {
        var num := origScale + i;
        var added := Added(width, proc, scale, num);
        AddKeepsGrowing(width, processes, proc, origScale, scale, num);
        AddKeepsSlots(old(processes), old(runningProcesses), processes, runningProcesses, proc, old(nextId), nextId,
                      added);
        AddProcessAndRun(added);
      }
    }

    /** Replicas from `scale` on are removed; the others note the new number of replicas, under their old names. */
    method ScaleDown(name: Name, scale: nat, ghost m: nat)
      requires Scaled(width, processes, name, m) && runningProcesses.Keys <= processes.Keys
      modifies this
      ensures processes == ScaledDown(old(processes), name, scale) && nextId == old(nextId)
      ensures runningProcesses == old(runningProcesses) - Surplus(old(processes), name, scale)
      ensures old(Keyed()) ==> Keyed()
    {
      hide KeyedAlike;
      var toRemove := NoteScale(name, scale, m);
      RemoveAll(toRemove);
      assert (set k | k in toRemove) == Surplus(old(processes), name, scale);
    }

    method RemoveAll(names: seq<Name>)
      modifies this
      ensures processes == old(processes) - (set k | k in names) && nextId == old(nextId)
      ensures runningProcesses == old(runningProcesses) - (set k | k in names)
      ensures old(Keyed()) ==> Keyed()
    {
      hide KeyedAlike;
      ghost var removed: set<Name> := {};
      for i := 0 to |names|
        invariant removed == set k | k in names[..i]
        invariant processes == old(processes) - removed && runningProcesses == old(runningProcesses) - removed
        invariant nextId == old(nextId) && (old(Keyed()) ==> Keyed())
      {
        assert names[..i + 1] == names[..i] + [names[i]];
        RemoveProcess(names[i]);
        removed := removed + {names[i]};
      }
      assert names[..|names|] == names;
    }

    method NoteScale(name: Name, scale: nat, ghost m: nat) returns (toRemove: seq<Name>)
      requires Scaled(width, processes, name, m)
      modifies `processes
      ensures processes.Keys == old(processes).Keys
      ensures forall k :: k in processes ==>
                processes[k] == if old(processes)[k].name == name && old(processes)[k].replicaNum < scale
                                then old(processes)[k].(replicas := scale) else old(processes)[k]
      ensures forall k :: k in toRemove <==> k in Surplus(old(processes), name, scale)
      ensures old(Keyed()) ==> Keyed()
    {
      toRemove := [];
      var keys := Enumerate(processes.Keys);
      for i := 0 to |keys|
        invariant processes.Keys == old(processes).Keys
        invariant forall k :: k in processes ==>
                    processes[k] == if k in keys[..i] && old(processes)[k].name == name
                                       && old(processes)[k].replicaNum < scale
                                    then old(processes)[k].(replicas := scale) else old(processes)[k]
        invariant forall k :: k in toRemove <==> k in keys[..i] && k in Surplus(old(processes), name, scale)
      {
        assert keys[i] in keys && keys[i] !in keys[..i] && keys[..i + 1] == keys[..i] + [keys[i]];
        var proc := processes[keys[i]];
        if proc.name == name {
          assert Own(old(processes), name, keys[i]) && proc.replicaName == keys[i];
          if proc.replicaNum >= scale {
            toRemove := toRemove + [proc.replicaName];
          } else {
            processes := processes[proc.replicaName := proc.(replicas := scale)];
          }
        }
      }
      assert keys[..|keys|] == keys;
    }

    /** Every replica gets the new number of replicas, and the name that goes with it. Names added to the map while
        it is visited may be visited too, or not. */
    method UpdateReplicaCount(name: Name, scale: nat, ghost m: nat, ghost t0: Table, ghost run0: Running,
                              ghost template: Replica, ghost firstId: Id)
      requires WideEnough(width) && Between(width, processes, name, m, scale) && NoClash(width, processes, name, scale)
      requires template.name == name && OthersSame(t0, processes, name)
      requires SlotsKept(t0, run0, template, firstId, processes, runningProcesses)
      modifies this
      ensures Scaled(width, processes, name, scale) && OthersSame(t0, processes, name)
      ensures SlotsKept(t0, run0, template, firstId, processes, runningProcesses)
      ensures old(Keyed()) ==> Keyed()
    {
      hide KeyedAlike, Between, NoClash, OthersSame, SlotsKept, OldNamed, ReplicaName;
      var left := processes.Keys;
      while left != {}
        invariant Between(width, processes, name, m, scale) && NoClash(width, processes, name, scale)
        invariant OthersSame(t0, processes, name)
        invariant SlotsKept(t0, run0, template, firstId, processes, runningProcesses)
        invariant forall k :: Own(processes, name, k) && k !in left ==> Settled(width, processes, name, scale, k)
        invariant old(Keyed()) ==> Keyed()
        decreases OldNamed(width, processes, name, scale), left
      {
        var k :| k in left;
        left := left - {k};
        if k in processes && processes[k].name == name {
          var newName := UpdateReplica(k, name, scale, m, t0, run0, template, firstId);
          var visitIt := *;
          if newName != k && visitIt {
            left := left + {newName};
          }
        }
      }
      BetweenDone(width, processes, name, m, scale);
    }

    method UpdateReplica(k: Name, name: Name, scale: nat, ghost m: nat, ghost t0: Table, ghost run0: Running,
                         ghost template: Replica, ghost firstId: Id) returns (newName: Name)
      requires WideEnough(width) && Between(width, processes, name, m, scale) && NoClash(width, processes, name, scale)
      requires template.name == name && OthersSame(t0, processes, name)
      requires SlotsKept(t0, run0, template, firstId, processes, runningProcesses)
      requires Own(processes, name, k)
      modifies this
      ensures Between(width, processes, name, m, scale) && NoClash(width, processes, name, scale)
      ensures OthersSame(t0, processes, name)
      ensures SlotsKept(t0, run0, template, firstId, processes, runningProcesses)
      ensures Own(processes, name, newName) && Settled(width, processes, name, scale, newName)
      ensures forall x :: Own(processes, name, x) && x != newName ==>
                Own(old(processes), name, x) && processes[x] == old(processes)[x]
      ensures var left := OldNamed(width, processes, name, scale);
              if newName == k then left == old(OldNamed(width, processes, name, scale))
              else left < old(OldNamed(width, processes, name, scale)) && k !in processes
      ensures old(Keyed()) ==> Keyed()
    {
      hide KeyedAlike, Between, NoClash, SlotsKept, ReplicaName, OldNamed;
      NoteReplica(k, name, scale, m, t0, run0, template, firstId);
      newName := ReplicaName(width, processes[k].name, processes[k].replicas, processes[k].replicaNum);
      if processes[k].replicaName != newName {
        RenameKeepsBetween(width, processes, name, m, scale, k);
        NewNameIsFree(width, processes, name, m, scale, k);
        RenameKeepsSlots(t0, run0, template, firstId, processes, runningProcesses, k, newName);
        RenamedTable(processes, k, newName);
        RenameSettles(width, processes, name, scale, k, newName);
        hide Renamed;
        RenameProcess(k, newName);
      }
    }

    /** The replica notes the new number of replicas, still under its old name. */
    method NoteReplica(k: Name, name: Name, scale: nat, ghost m: nat, ghost t0: Table, ghost run0: Running,
                       ghost template: Replica, ghost firstId: Id)
      requires Between(width, processes, name, m, scale) && NoClash(width, processes, name, scale)
      requires template.name == name && OthersSame(t0, processes, name)
      requires SlotsKept(t0, run0, template, firstId, processes, runningProcesses)
      requires Own(processes, name, k)
      modifies `processes
      ensures Between(width, processes, name, m, scale) && NoClash(width, processes, name, scale)
      ensures OthersSame(t0, processes, name)
      ensures SlotsKept(t0, run0, template, firstId, processes, runningProcesses)
      ensures processes == old(processes)[k := old(processes)[k].(replicas := scale)] && processes[k].replicaName == k
      ensures OldNamed(width, processes, name, scale) == old(OldNamed(width, processes, name, scale))
      ensures old(Keyed()) ==> Keyed()
    {
      NoteKeepsKeys(processes, processStates, processLogs, watched, k, scale);
      NamedByKey(width, processes, name, m, scale, k);
      NoteKeeps(width, processes, runningProcesses, name, m, scale, k, t0, run0, template, firstId);
      hide KeyedAlike, Between, NoClash, SlotsKept, OthersSame, ReplicaName, OldNamed;
      var proc := processes[k].(replicas := scale);
      processes := processes[proc.replicaName := proc];
    }

    lemma NoteKeepsKeys(t: Table, states: Running, logs: set<Name>, watched: set<Name>, k: Name, n: int)
      requires k in t
      ensures KeyedAlike(t, states, logs, watched) ==> KeyedAlike(t[k := t[k].(replicas := n)], states, logs, watched)
    {
    }

    /** ScaleProcess: from replicas 0 to m - 1 to exactly replicas 0 to scale - 1, each under the name it has among
        them, with every process of another name, and whoever ran as a replica that stays, as before. */
    method ScaleProcess(key: Name, scale: int, ghost m: nat) returns (ok: bool)
      requires WideEnough(width) && runningProcesses.Keys <= processes.Keys
      requires key in processes ==> Scaled(width, processes, processes[key].name, m)
      requires key in processes && scale >= 1 ==> NoClash(width, processes, processes[key].name, scale)
      modifies this
      ensures ok <==> scale >= 1 && key in old(processes)
      ensures !ok ==> processes == old(processes) && runningProcesses == old(runningProcesses)
      ensures ok ==>
                var template := old(processes)[key];
                && Scaled(width, processes, template.name, scale)
                && OthersSame(old(processes), processes, template.name)
                && SlotsKept(old(processes), old(runningProcesses), template, old(nextId), processes, runningProcesses)
      ensures old(Keyed()) ==> Keyed()
    {
      hide KeyedAlike;
      if scale < 1 {
        return false;
      }
      if key !in processes {
        return false;
      }
      ok := true;
      var processConfig := processes[key];
      var origScale := CurrentReplicaCount(processConfig.name);
      ScaledCount(width, processes, processConfig.name, m);
      StartsBetween(width, processes, runningProcesses, processConfig, nextId, m, m);
      var scaleDelta := scale - origScale;
      if scaleDelta < 0 {
        DownKeeps(width, processes, runningProcesses, processConfig, nextId, m, scale);
        hide Scaled, Between, NoClash, SlotsKept, OthersSame, ScaledDown, Surplus;
        ScaleDown(processConfig.name, scale, m);
      } else if scaleDelta > 0 {
        hide Scaled, Between, NoClash, SlotsKept, OthersSame;
        ScaleUp(processConfig, scaleDelta, scale, origScale);
      } else {
        return;
      }
      UpdateReplicaCount(processConfig.name, scale, m, old(processes), old(runningProcesses), processConfig,
                         old(nextId));
    }
  }

  lemma NamedByKey(width: WidthOf, t: Table, name: Name, m: nat, n: nat, k: Name)
    requires Between(width, t, name, m, n) && Own(t, name, k)
    ensures t[k].replicaName == k
  {
  }

  lemma NoteKeeps(width: WidthOf, t: Table, run: Running, name: Name, m: nat, n: nat, k: Name,
                  t0: Table, run0: Running, template: Replica, firstId: Id)
    requires Between(width, t, name, m, n) && NoClash(width, t, name, n) && OthersSame(t0, t, name)
    requires template.name == name && SlotsKept(t0, run0, template, firstId, t, run) && Own(t, name, k)
    ensures var u := t[k := t[k].(replicas := n)];
            && Between(width, u, name, m, n) && NoClash(width, u, name, n) && OthersSame(t0, u, name)
            && SlotsKept(t0, run0, template, firstId, u, run)
            && OldNamed(width, u, name, n) == OldNamed(width, t, name, n)
  {
    hide ReplicaName, Between, SlotsKept, HasNumber;
    NoteKeepsBetween(width, t, name, m, n, k);
    NoteKeepsSlots(t, run, n, k, t0, run0, template, firstId);
  }

  lemma NoteKeepsBetween(width: WidthOf, t: Table, name: Name, m: nat, n: nat, k: Name)
    requires Between(width, t, name, m, n) && Own(t, name, k)
    ensures Between(width, t[k := t[k].(replicas := n)], name, m, n)
  {
    hide ReplicaName;
    var u := t[k := t[k].(replicas := n)];
    forall i: nat | i < n ensures HasNumber(u, name, i) {
      assert HasNumber(t, name, i);
      var x :| Holds(t, name, x, i);
      assert Holds(u, name, x, i);
    }
  }

  lemma NoteKeepsSlots(t: Table, run: Running, n: nat, k: Name, t0: Table, run0: Running, template: Replica,
                       firstId: Id)
    requires SlotsKept(t0, run0, template, firstId, t, run) && Own(t, template.name, k)
    ensures SlotsKept(t0, run0, template, firstId, t[k := t[k].(replicas := n)], run)
  {
    hide SameEntry, HasNumber;
    var u := t[k := t[k].(replicas := n)];
    forall i, k0, x | Holds(t0, template.name, k0, i) && Holds(u, template.name, x, i)
      ensures SameSlot(t0, run0, k0, u, run, x)
    {
      assert Holds(t, template.name, x, i) && SameSlot(t0, run0, k0, t, run, x);
    }
    forall x | Own(u, template.name, x) && !HasNumber(t0, template.name, u[x].replicaNum)
      ensures NewSlot(template, firstId, u, run, x)
    {
      assert Own(t, template.name, x) && NewSlot(template, firstId, t, run, x);
    }
  }

  lemma RenameSettles(width: WidthOf, t: Table, name: Name, n: nat, k: Name, newName: Name)
    requires Own(t, name, k) && newName !in t && newName == ReplicaName(width, name, n, t[k].replicaNum)
    ensures OldNamed(width, Renamed(t, k, newName), name, n) < OldNamed(width, t, name, n)
  {
    RenamedTable(t, k, newName);
    hide Renamed, ReplicaName;
    assert k in OldNamed(width, t, name, n) && k !in OldNamed(width, Renamed(t, k, newName), name, n);
  }

  lemma DownKeeps(width: WidthOf, t: Table, run: Running, template: Replica, firstId: Id, m: nat, n: nat)
    requires WideEnough(width) && Scaled(width, t, template.name, m) && n < m && run.Keys <= t.Keys
    requires NoClash(width, t, template.name, n)
    ensures var u := ScaledDown(t, template.name, n);
            && Between(width, u, template.name, m, n) && NoClash(width, u, template.name, n)
            && OthersSame(t, u, template.name)
            && SlotsKept(t, run, template, firstId, u, run - Surplus(t, template.name, n))
  {
    StartsBetween(width, t, run, template, firstId, m, m);
    DownKeepsBetween(width, t, template.name, m, n);
    DownKeepsSlots(t, run, template, firstId, n);
    hide ReplicaName, Between, Scaled, SlotsKept;
  }

  lemma DownKeepsBetween(width: WidthOf, t: Table, name: Name, m: nat, n: nat)
    requires Scaled(width, t, name, m) && NumberedOnce(t, name) && n < m
    ensures Between(width, ScaledDown(t, name, n), name, m, n)
  {
    hide ReplicaName;
    var u := ScaledDown(t, name, n);
    forall i: nat | i < n ensures HasNumber(u, name, i) {
      assert Holds(t, name, ReplicaName(width, name, m, i), i);
      assert Holds(u, name, ReplicaName(width, name, m, i), i);
    }
    assert forall k :: Own(u, name, k) ==> Own(t, name, k) && u[k].replicaNum == t[k].replicaNum < n;
  }

  lemma DownKeepsSlots(t: Table, run: Running, template: Replica, firstId: Id, n: nat)
    requires NumberedOnce(t, template.name) && run.Keys <= t.Keys
    ensures SlotsKept(t, run, template, firstId, ScaledDown(t, template.name, n), run - Surplus(t, template.name, n))
  {
    var name, u, after := template.name, ScaledDown(t, template.name, n), run - Surplus(t, template.name, n);
    forall i, k0, x | Holds(t, name, k0, i) && Holds(u, name, x, i) ensures SameSlot(t, run, k0, u, after, x) {
      assert Own(t, name, x) && Own(t, name, k0) && k0 == x;
    }
    forall x | Own(u, name, x) ensures HasNumber(t, name, u[x].replicaNum) {
      assert Holds(t, name, x, u[x].replicaNum);
    }
  }

  /** Counting the processes of a name counts its replicas. */
  lemma {:induction false} ScaledCount(width: WidthOf, t: Table, name: Name, m: nat)
    requires WideEnough(width) && Scaled(width, t, name, m)
    ensures |OwnKeys(t, name)| == m
  {
    FirstKeys(width, t, name, m, m);
    assert OwnKeys(t, name) == KeysBelow(t, name, m);
  }

  function KeysBelow(t: Table, name: Name, count: nat): set<Name> {
    set k | k in t && t[k].name == name && t[k].replicaNum < count
  }

  lemma {:induction false} FirstKeys(width: WidthOf, t: Table, name: Name, m: nat, count: nat)
    requires WideEnough(width) && Scaled(width, t, name, m) && count <= m
    ensures |KeysBelow(t, name, count)| == count
    decreases count
  {
    hide ReplicaName;
    if count == 0 {
      assert KeysBelow(t, name, 0) == {};
    } else {
      FirstKeys(width, t, name, m, count - 1);
      var k := ReplicaName(width, name, m, count - 1);
      assert Holds(t, name, k, count - 1);
      assert KeysBelow(t, name, count) == KeysBelow(t, name, count - 1) + {k} by {
        forall x | x in KeysBelow(t, name, count) && x !in KeysBelow(t, name, count - 1) ensures x == k {
          assert Own(t, name, x);
        }
      }
    }
  }

  /** The replicas beyond the new number. */
  function Surplus(t: Table, name: Name, scale: nat): set<Name> {
    set k | k in t && t[k].name == name && t[k].replicaNum >= scale
  }

  function ScaledDown(t: Table, name: Name, scale: nat): Table {
    map k | k in t && k !in Surplus(t, name, scale) :: if t[k].name == name then t[k].(replicas := scale) else t[k]
  }

  /** k has the new number of replicas, and the name that goes with it. */
  predicate Settled(width: WidthOf, t: Table, name: Name, n: nat, k: Name)
    requires k in t
  {
    t[k].replicas == n && k == ReplicaName(width, name, n, t[k].replicaNum)
  }

  function OldNamed(width: WidthOf, t: Table, name: Name, n: nat): set<Name> {
    set k | k in t && t[k].name == name && k != ReplicaName(width, name, n, t[k].replicaNum)
  }

  function OwnKeys(t: Table, name: Name): set<Name> {
    set k | k in t && t[k].name == name
  }

  function OwnAmong(t: Table, name: Name, keys: seq<Name>): set<Name> {
    set k | k in keys && Own(t, name, k)
  }

  lemma OwnAmongMore(t: Table, name: Name, keys: seq<Name>, k: Name)
    requires k !in keys
    ensures |OwnAmong(t, name, keys + [k])| == |OwnAmong(t, name, keys)| + if Own(t, name, k) then 1 else 0
  {
    assert OwnAmong(t, name, keys + [k]) == OwnAmong(t, name, keys) + if Own(t, name, k) then {k} else {};
  }

  /** The replicas are complete up to `count`, and none is beyond. */
  ghost predicate Growing(width: WidthOf, t: Table, name: Name, m: nat, n: nat, count: nat) {
    && Named(width, t, name, m, n) && NumberedOnce(t, name) && Complete(t, name, count)
    && forall k :: Own(t, name, k) ==> t[k].replicaNum < count
  }

  lemma StartsBetween(width: WidthOf, t: Table, run: Running, proc: Replica, firstId: Id, m: nat, n: nat)
    requires WideEnough(width) && Scaled(width, t, proc.name, m) && m <= n && run.Keys <= t.Keys
    ensures Growing(width, t, proc.name, m, n, m)
    ensures SlotsKept(t, run, proc, firstId, t, run)
  {
    hide ReplicaName;
    forall i: nat | i < m ensures HasNumber(t, proc.name, i) {
      assert Holds(t, proc.name, ReplicaName(width, proc.name, m, i), i);
    }
  }

  function Added(width: WidthOf, proc: Replica, n: nat, num: nat): Replica {
    proc.(replicaNum := num, replicas := n, replicaName := ReplicaName(width, proc.name, n, num))
  }

  lemma AddKeepsGrowing(width: WidthOf, t: Table, proc: Replica, m: nat, n: nat, num: nat)
    requires WideEnough(width) && Growing(width, t, proc.name, m, n, num) && m <= num < n
    requires NoClash(width, t, proc.name, n)
    ensures var added := Added(width, proc, n, num); var u := t[added.replicaName := added];
            && Growing(width, u, proc.name, m, n, num + 1) && NoClash(width, u, proc.name, n)
            && added.replicaName !in t
  {
    NumberIsFree(width, t, proc.name, m, n, num);
    hide ReplicaName;
    var added := Added(width, proc, n, num);
    var u := t[added.replicaName := added];
    forall i: nat | i < num + 1 ensures HasNumber(u, proc.name, i) {
      if i == num {
        assert Holds(u, proc.name, added.replicaName, i);
      } else {
        assert HasNumber(t, proc.name, i);
        var x :| Holds(t, proc.name, x, i);
        assert Holds(u, proc.name, x, i);
      }
    }
  }

  lemma AddKeepsSlots(t0: Table, run0: Running, t: Table, run: Running, proc: Replica, firstId: Id, nextId: Id,
                      added: Replica)
    requires SlotsKept(t0, run0, proc, firstId, t, run) && firstId <= nextId && OthersSame(t0, t, proc.name)
    requires added.name == proc.name && added.config == proc.config && added.launches == proc.launches
    requires added.replicaName !in t && !HasNumber(t0, proc.name, added.replicaNum)
    ensures var u := t[added.replicaName := added];
            && SlotsKept(t0, run0, proc, firstId, u, if proc.launches then run[added.replicaName := nextId] else run)
            && OthersSame(t0, u, proc.name)
  {
    var u, after := t[added.replicaName := added], if proc.launches then run[added.replicaName := nextId] else run;
    assert forall x :: x in t ==> x in u && u[x] == t[x] && SameEntry(run, x, after, x);
    forall i, k0, x | Holds(t0, proc.name, k0, i) && Holds(u, proc.name, x, i)
      ensures SameSlot(t0, run0, k0, u, after, x)
    {
      assert HasNumber(t0, proc.name, i);
      assert Holds(t, proc.name, x, i) && SameSlot(t0, run0, k0, t, run, x);
    }
    forall x | Own(u, proc.name, x) && !HasNumber(t0, proc.name, u[x].replicaNum)
      ensures NewSlot(proc, firstId, u, after, x)
    {
      assert x != added.replicaName ==> Own(t, proc.name, x) && NewSlot(proc, firstId, t, run, x);
    }
  }

  lemma NumberIsFree(width: WidthOf, t: Table, name: Name, m: nat, n: nat, num: nat)
    requires WideEnough(width) && Growing(width, t, name, m, n, num) && m <= num < n && NoClash(width, t, name, n)
    ensures ReplicaName(width, name, n, num) !in t
  {
    var k := ReplicaName(width, name, n, num);
    if k in t {
      assert Own(t, name, k);
      var i := t[k].replicaNum;
      if k == ReplicaName(width, name, n, i) {
        ReplicaNamesDiffer(width, name, n, n, num, i);
      } else {
        ReplicaNamesDiffer(width, name, n, m, num, i);
      }
    }
  }
}

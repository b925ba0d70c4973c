/** A stop outranks every restart that was already under way when the stop was requested. */
module StopRestart {
  import opened Common
  import opened RunnerProtocol

  // ----- The registry names the newest incarnation for as long as it is alive -----

  /** No incarnation of the same name was registered after i. */
  ghost predicate Newest(incs: seq<Incarnation>, i: Id) {
    && i < |incs|
    && forall j :: i < j < |incs| ==> incs[j].name != incs[i].name
  }

  ghost predicate RegistryInv(running: map<Name, Id>, incs: seq<Incarnation>) {
    && (forall n :: n in running ==>
          Newest(incs, running[n]) && incs[running[n]].name == n && incs[running[n]].fate.Alive?)
    && (forall i: Id :: Newest(incs, i) && incs[i].fate.Alive? ==>
          incs[i].name in running && running[incs[i].name] == i)
  }

  lemma RegisterKeepsRegistry(running: map<Name, Id>, incs: seq<Incarnation>, name: Name)
    requires RegistryInv(running, incs)
    ensures RegistryInv(running[name := |incs|], incs + [Incarnation(name, Alive)])
  {
    var incs' := incs + [Incarnation(name, Alive)];
    assert Newest(incs', |incs|);
    forall i: Id | Newest(incs', i) && i < |incs|
      ensures Newest(incs, i) && incs[i].name != name
    {
      assert incs'[|incs|].name != incs'[i].name;
      forall j | i < j < |incs| ensures incs[j].name != incs[i].name {
        assert incs'[j].name != incs'[i].name;
      }
    }
  }

  lemma NewestIgnoresFate(incs: seq<Incarnation>, id: Id, fate: Fate, i: Id)
    requires id < |incs|
    ensures Newest(incs[id := incs[id].(fate := fate)], i) <==> Newest(incs, i)
  {
    var incs' := incs[id := incs[id].(fate := fate)];
    assert forall j :: 0 <= j < |incs| ==> incs'[j].name == incs[j].name;
  }

  /** A leaving incarnation keeps the registry exact: it deregisters its name unless superseded. */
  lemma LeaveKeepsRegistry(running: map<Name, Id>, incs: seq<Incarnation>, id: Id, fate: Fate, running': map<Name, Id>)
    requires RegistryInv(running, incs) && id < |incs| && !fate.Alive?
    requires
      || (running' == running && (!incs[id].fate.Alive? || !Newest(incs, id)))
      || (running' == running - {incs[id].name} && (incs[id].name in running ==> running[incs[id].name] == id))
    ensures RegistryInv(running', incs[id := incs[id].(fate := fate)])
  {
    var incs' := incs[id := incs[id].(fate := fate)];
    forall n | n in running'
      ensures Newest(incs', running'[n]) && incs'[running'[n]].name == n && incs'[running'[n]].fate.Alive?
    {
      NewestIgnoresFate(incs, id, fate, running[n]);
    }
    forall i: Id | Newest(incs', i) && incs'[i].fate.Alive?
      ensures incs'[i].name in running' && running'[incs'[i].name] == i
    {
      NewestIgnoresFate(incs, id, fate, i);
    }
  }

  lemma DeregisterKeepsRegistry(running: map<Name, Id>, incs: seq<Incarnation>, id: Id, fate: Fate)
    requires RegistryInv(running, incs) && id < |incs| && !fate.Alive?
    ensures RegistryInv(RemoveRunning(running, incs[id].name, id).0, incs[id := incs[id].(fate := fate)])
  {
    var n := incs[id].name;
    if n in running && running[n] != id {
      assert Newest(incs, running[n]);
      assert !Newest(incs, id);
    }
    LeaveKeepsRegistry(running, incs, id, fate, RemoveRunning(running, n, id).0);
  }

  // ----- Which operation is where, and who holds restartMutex -----

  /** The places an operation of each kind can be at. */
  predicate KindAt(kind: Kind, pc: Pc) {
    match kind
    case StopK => pc in {Note, Look, Down, AskArmed, AskRestart, Pause, Over}
    case RestartK => pc in {Join, Sample, Look, Down, Compare, Register, Unlock, Cleanup, Read, Send, Over}
    case StartK => pc in {Look, Register, Over}
    case UpdateK => pc in {Begin, Busy, Define, Undefine, Look, Down, Register, Read, Send, Over}
    case RemoveK => pc in {Undefine, Look, Down, Over}
    case AddK => pc in {Define, Register, Over}
    case BootK => pc in {Register, Over}
  }

  /** A restart that has passed its epoch comparison and not yet released restartMutex. */
  predicate HoldsLock(op: Op) {
    op.kind == RestartK && (op.pc == Register || op.pc == Unlock)
  }

  ghost predicate OpsInv(co: Coalescing, ops: seq<Op>) {
    && (forall t :: 0 <= t < |ops| ==> KindAt(ops[t].kind, ops[t].pc))
    && (forall t :: 0 <= t < |ops| && HoldsLock(ops[t]) ==>
      co.lock == Some(t) && ops[t].epoch == Epoch(co, ops[t].name))
    && (co.lock.Some? ==> co.lock.value < |ops| && HoldsLock(ops[co.lock.value]))
  }

  ghost predicate Inv(s: State) {
    RegistryInv(s.running, s.incs) && OpsInv(s.co, s.ops)
  }

  /** What a step of one operation may do to the operations: it moves itself along its own kind's
      places, and holds restartMutex afterwards exactly when the lock says so. */
  lemma MoveKeepsOps(co: Coalescing, ops: seq<Op>, co': Coalescing, t: Tid, op: Op)
    requires OpsInv(co, ops) && t < |ops|
    requires op.kind == ops[t].kind && KindAt(op.kind, op.pc)
    requires co'.epochs == co.epochs || (co.lock == None && co'.lock == None && !HoldsLock(op))
    requires HoldsLock(op) ==> co'.lock == Some(t) && op.epoch == Epoch(co', op.name)
    requires co'.lock == co.lock || (co.lock == None && co'.lock == Some(t)) || (co.lock == Some(t) && co'.lock == None)
    requires co'.lock == Some(t) ==> HoldsLock(op)
    ensures OpsInv(co', ops[t := op])
  {
    var ops' := ops[t := op];
    forall u | 0 <= u < |ops'| && HoldsLock(ops'[u])
      ensures co'.lock == Some(u) && ops'[u].epoch == Epoch(co', ops'[u].name)
    {
      assert u != t ==> ops'[u] == ops[u];
    }
  }

  lemma CoalesceKeepsInv(s: State, t: Tid)
    requires Inv(s) && OpEnabled(s, t, Go) && (NeedsLock(s.ops[t].pc) || s.ops[t].pc == Unlock)
    ensures Inv(CoalesceStep(s, t))
  {
    assert KindAt(s.ops[t].kind, s.ops[t].pc);
    var s' := CoalesceStep(s, t);
    MoveKeepsOps(s.co, s.ops, s'.co, t, s'.ops[t]);
  }

  lemma RegistryKeepsInv(s: State, t: Tid, failed: bool)
    requires Inv(s) && t < |s.ops|
    requires AtRegistry(s.ops[t].pc)
    ensures Inv(RegistryStep(s, t, failed))
  {
    assert KindAt(s.ops[t].kind, s.ops[t].pc);
    var s' := RegistryStep(s, t, failed);
    MoveKeepsOps(s.co, s.ops, s'.co, t, s'.ops[t]);
    if s.ops[t].pc == Register {
      RegisterKeepsRegistry(s.running, s.incs, s.ops[t].name);
    }
  }

  lemma CheckKeepsInv(s: State, t: Tid, a: OpAct)
    requires Inv(s) && OpEnabled(s, t, a)
    requires AtCheck(s.ops[t].pc)
    ensures Inv(CheckStep(s, t, a))
  {
    assert KindAt(s.ops[t].kind, s.ops[t].pc);
    var s' := CheckStep(s, t, a);
    MoveKeepsOps(s.co, s.ops, s'.co, t, s'.ops[t]);
  }

  lemma LeaveKeepsInv(s: State, id: Id, a: LeaveAct)
    requires Inv(s) && LeaveEnabled(s, id, a)
    ensures Inv(LeaveStep(s, id, a))
  {
    var s' := LeaveStep(s, id, a);
    if a.Deregister? {
      DeregisterKeepsRegistry(s.running, s.incs, id, s'.incs[id].fate);
    } else {
      LeaveKeepsRegistry(s.running, s.incs, id, Gone, s.running);
    }
  }

  lemma NextKeepsInv(s: State, l: Label, s': State)
    requires Inv(s) && Next(s, l, s')
    ensures Inv(s')
  {
    hide CoalesceStep, RegistryStep, CheckStep, LeaveStep, RegistryInv;
    match l
    case Leave(id, a) => LeaveKeepsInv(s, id, a);
    case Api(t, a) =>
      var pc := s.ops[t].pc;
      if NeedsLock(pc) || pc == Unlock {
        CoalesceKeepsInv(s, t);
      } else if AtCheck(pc) {
        CheckKeepsInv(s, t, a);
      } else {
        RegistryKeepsInv(s, t, a == Failed);
      }
    case _ =>
  }

  lemma {:induction false} RunKeepsInv(path: seq<State>, labels: seq<Label>, k: nat)
    requires IsRun(path, labels) && k < |path|
    ensures Inv(path[k])
  {
    if k == 0 {
      assert path[0].running == map[];
    } else {
      RunKeepsInv(path, labels, k - 1);
      NextKeepsInv(path[k - 1], labels[k - 1], path[k]);
    }
  }

  /** The newest unfinished incarnation of a name is the one the registry holds. */
  lemma NewestAliveIsRegistered(path: seq<State>, labels: seq<Label>, k: nat, i: Id)
    requires IsRun(path, labels) && k < |path| && Newest(path[k].incs, i)
    ensures var s := path[k]; var n := s.incs[i].name;
            s.incs[i].fate.Alive? <==> n in s.running && s.running[n] == i
    ensures var s := path[k]; var n := s.incs[i].name;
            !s.incs[i].fate.Alive? <==> n !in s.running
  {
    RunKeepsInv(path, labels, k);
    var s := path[k];
    var n := s.incs[i].name;
    if n in s.running {
      assert Newest(s.incs, s.running[n]);
    }
  }

  /** An incarnation that leaves while the newest one of its process, j, is another and unfinished leaves without a
      trace. Any other clears the name from the registry and commits itself to reporting how many are left, even if j
      has done so before it. */
  lemma LeavesForNewest(path: seq<State>, labels: seq<Label>, k: nat, i: Id, j: Id)
    requires IsRun(path, labels) && k < |labels| && labels[k] == Leave(i, Deregister)
    requires i < |path[k].incs| && Newest(path[k].incs, j) && path[k].incs[j].name == path[k].incs[i].name
    ensures i < |path[k + 1].incs|
    ensures var s, s', n := path[k], path[k + 1], path[k].incs[i].name;
            if j != i && s.incs[j].fate.Alive? then s'.running == s.running && s'.incs[i].fate == Gone
            else s'.running == s.running - {n} && s'.incs[i].fate == Reporting(|s'.running|)
                 && (j == i ==> |s.running| == |s'.running| + 1)
  {
    assert Next(path[k], labels[k], path[k + 1]);
    NewestAliveIsRegistered(path, labels, k, j);
    LeavesAlone(path[k], i);
    hide LeaveStep;
  }

  lemma LeavesAlone(s: State, i: Id)
    requires LeaveEnabled(s, i, Deregister)
    ensures var n, s' := s.incs[i].name, LeaveStep(s, i, Deregister);
            if n in s.running && s.running[n] != i then s'.running == s.running && s'.incs[i].fate == Gone
            else s'.running == s.running - {n} && s'.incs[i].fate == Reporting(|s'.running|)
                 && (n in s.running ==> |s.running| == |s'.running| + 1)
  {
    var n := s.incs[i].name;
    if n in s.running {
      assert s.running.Keys == (s.running - {n}).Keys + {n};
    }
  }

  // ----- A stop request and the restarts that sampled the epoch before it -----

  /** Operation r is a restart of n that has sampled epoch e. */
  ghost predicate Sampled(s: State, r: Tid, n: Name, e: nat) {
    && r < |s.ops|
    && s.ops[r].kind == RestartK && s.ops[r].name == n && s.ops[r].epoch == e
    && s.ops[r].pc != Join && s.ops[r].pc != Sample
    && e <= Epoch(s.co, n)
  }

  /** ... and a stop of n was requested since, with r not about to launch. */
  ghost predicate Outranked(s: State, r: Tid, n: Name, e: nat) {
    Sampled(s, r, n, e) && e < Epoch(s.co, n) && s.ops[r].pc != Register
  }

  lemma NextKeepsSampled(s: State, l: Label, s': State, r: Tid, n: Name, e: nat)
    requires Inv(s) && Next(s, l, s') && Sampled(s, r, n, e)
    ensures Sampled(s', r, n, e)
    ensures Outranked(s, r, n, e) ==> Outranked(s', r, n, e)
  {
    hide RegistryInv, LeaveStep, LoopStep;
    if l.Leave? {
      assert s'.ops == s.ops && s'.co == s.co by { LeaveLeavesOps(s, l.id, l.leave); }
    } else if l.Loop? {
      assert s'.ops == s.ops && s'.co == s.co by { LoopLeavesOps(s, l.loop); }
    } else if l.Api? {
      assert KindAt(s.ops[l.t].kind, s.ops[l.t].pc);
      if l.t == r {
        OwnStepKeepsSampled(s, l.act, r, n, e);
      } else {
        OtherStepKeepsSampled(s, l.t, l.act, r, n, e);
      }
    }
  }

  lemma LeaveLeavesOps(s: State, id: Id, a: LeaveAct)
    requires LeaveEnabled(s, id, a)
    ensures LeaveStep(s, id, a).ops == s.ops && LeaveStep(s, id, a).co == s.co
  {
  }

  lemma LoopLeavesOps(s: State, a: LoopAct)
    requires LoopEnabled(s, a)
    ensures LoopStep(s, a).ops == s.ops && LoopStep(s, a).co == s.co
  {
  }

  lemma OwnCoalesceKeepsSampled(s: State, r: Tid, n: Name, e: nat)
    requires OpsInv(s.co, s.ops) && Sampled(s, r, n, e) && (NeedsLock(s.ops[r].pc) || s.ops[r].pc == Unlock)
    ensures Sampled(CoalesceStep(s, r), r, n, e)
    ensures Outranked(s, r, n, e) ==> Outranked(CoalesceStep(s, r), r, n, e)
  {
    assert KindAt(s.ops[r].kind, s.ops[r].pc);
  }

  lemma OwnRegistryKeepsSampled(s: State, r: Tid, n: Name, e: nat, failed: bool)
    requires OpsInv(s.co, s.ops) && Sampled(s, r, n, e) && AtRegistry(s.ops[r].pc)
    ensures Sampled(RegistryStep(s, r, failed), r, n, e)
    ensures Outranked(s, r, n, e) ==> Outranked(RegistryStep(s, r, failed), r, n, e)
  {
    assert KindAt(s.ops[r].kind, s.ops[r].pc);
  }

  lemma OwnCheckKeepsSampled(s: State, r: Tid, n: Name, e: nat, a: OpAct)
    requires OpsInv(s.co, s.ops) && Sampled(s, r, n, e) && AtCheck(s.ops[r].pc)
    ensures Sampled(CheckStep(s, r, a), r, n, e)
    ensures Outranked(s, r, n, e) ==> Outranked(CheckStep(s, r, a), r, n, e)
  {
    assert KindAt(s.ops[r].kind, s.ops[r].pc);
  }

  lemma OwnStepKeepsSampled(s: State, a: OpAct, r: Tid, n: Name, e: nat)
    requires OpsInv(s.co, s.ops) && OpEnabled(s, r, a) && Sampled(s, r, n, e)
    ensures Sampled(OpStep(s, r, a), r, n, e)
    ensures Outranked(s, r, n, e) ==> Outranked(OpStep(s, r, a), r, n, e)
  {
    hide CoalesceStep, RegistryStep, CheckStep, Sampled, Outranked, OpsInv;
    var pc := s.ops[r].pc;
    if NeedsLock(pc) || pc == Unlock {
      OwnCoalesceKeepsSampled(s, r, n, e);
    } else if AtCheck(pc) {
      OwnCheckKeepsSampled(s, r, n, e, a);
    } else {
      OwnRegistryKeepsSampled(s, r, n, e, a == Failed);
    }
  }

  lemma OtherStepKeepsSampled(s: State, t: Tid, a: OpAct, r: Tid, n: Name, e: nat)
    requires OpEnabled(s, t, a) && Sampled(s, r, n, e) && t != r
    ensures Sampled(OpStep(s, t, a), r, n, e)
    ensures Outranked(s, r, n, e) ==> Outranked(OpStep(s, t, a), r, n, e)
  {
  }

  lemma {:induction false} RunKeepsSampled(path: seq<State>, labels: seq<Label>, i: nat, k: nat, r: Tid, n: Name,
                                           e: nat)
    requires IsRun(path, labels) && i <= k < |path| && Sampled(path[i], r, n, e)
    ensures Sampled(path[k], r, n, e)
    ensures Outranked(path[i], r, n, e) ==> Outranked(path[k], r, n, e)
    decreases k
  {
    hide Next, Sampled, Outranked, Inv;
    if i < k {
      RunKeepsSampled(path, labels, i, k - 1, r, n, e);
      RunKeepsInv(path, labels, k - 1);
      NextKeepsSampled(path[k - 1], labels[k - 1], path[k], r, n, e);
    }
  }

  /** Step k of the run is operation t at place pc. */
  ghost predicate StepIs(path: seq<State>, labels: seq<Label>, k: nat, t: Tid, pc: Pc) {
    && k < |labels| && k < |path|
    && labels[k] == Api(t, Go) && t < |path[k].ops| && path[k].ops[t].pc == pc
  }

  /** A request noted at step j keeps every restart that sampled its epoch before from launching. */
  lemma NoLaunchAfterNote(path: seq<State>, labels: seq<Label>, i: nat, j: nat, k: nat, r: Tid, t: Tid)
    requires IsRun(path, labels) && i < j < k
    requires StepIs(path, labels, i, r, Sample) && path[i].ops[r].kind == RestartK
    requires StepIs(path, labels, j, t, Note) && path[j].ops[t].name == path[i].ops[r].name
    ensures !StepIs(path, labels, k, r, Register)
  {
    var n, e := path[i].ops[r].name, Epoch(path[i].co, path[i].ops[r].name);
    assert Sampled(path[i + 1], r, n, e);
    RunKeepsSampled(path, labels, i + 1, j, r, n, e);
    RunKeepsInv(path, labels, j);
    assert Outranked(path[j + 1], r, n, e) by {
      assert Next(path[j], labels[j], path[j + 1]);
      assert path[j].co.lock == None;
      assert !HoldsLock(path[j].ops[r]);
    }
    if StepIs(path, labels, k, r, Register) {
      RunKeepsSampled(path, labels, j + 1, k, r, n, e);
    }
  }

  /** A stop of n was noted at step i or later and before step k. */
  ghost predicate NotedBetween(path: seq<State>, labels: seq<Label>, i: nat, k: nat, n: Name) {
    exists j: nat, t: Tid :: i <= j < k && StepIs(path, labels, j, t, Note) && path[j].ops[t].name == n
  }

  lemma EpochStep(s: State, l: Label, s': State, n: Name)
    requires Next(s, l, s')
    ensures Epoch(s.co, n) <= Epoch(s'.co, n)
    ensures Epoch(s.co, n) < Epoch(s'.co, n) <==>
            l.Api? && l.act == Go && l.t < |s.ops| && s.ops[l.t].pc == Note && s.ops[l.t].name == n
  {
    hide LeaveStep, LoopStep;
    if l.Leave? {
      LeaveLeavesOps(s, l.id, l.leave);
    } else if l.Loop? {
      LoopLeavesOps(s, l.loop);
    }
  }

  /** Comparing epochs is exactly asking whether a stop was noted in between. */
  lemma {:induction false} EpochTellsNotes(path: seq<State>, labels: seq<Label>, i: nat, k: nat, n: Name)
    requires IsRun(path, labels) && i <= k < |path|
    ensures Epoch(path[i].co, n) <= Epoch(path[k].co, n)
    ensures Epoch(path[i].co, n) < Epoch(path[k].co, n) <==> NotedBetween(path, labels, i, k, n)
    decreases k
  {
    hide Next;
    if i < k {
      EpochTellsNotes(path, labels, i, k - 1, n);
      EpochStep(path[k - 1], labels[k - 1], path[k], n);
      hide Epoch, IsRun;
      if Epoch(path[k - 1].co, n) < Epoch(path[k].co, n) {
        assert StepIs(path, labels, k - 1, labels[k - 1].t, Note);
      } else if NotedBetween(path, labels, i, k, n) {
        var j: nat, t: Tid :| i <= j < k && StepIs(path, labels, j, t, Note) && path[j].ops[t].name == n;
        assert j < k - 1;
      }
    }
  }

  lemma {:induction false} RunKeepsNames(path: seq<State>, labels: seq<Label>, i: nat, k: nat, x: Id)
    requires IsRun(path, labels) && i <= k < |path| && x < |path[i].incs|
    ensures x < |path[k].incs| && path[k].incs[x].name == path[i].incs[x].name
    decreases k
  {
    hide Next;
    if i < k {
      RunKeepsNames(path, labels, i, k - 1, x);
      StepKeepsNames(path[k - 1], labels[k - 1], path[k], x);
    }
  }

  lemma StepKeepsNames(s: State, l: Label, s': State, x: Id)
    requires Next(s, l, s') && x < |s.incs|
    ensures x < |s'.incs| && s'.incs[x].name == s.incs[x].name
  {
  }

  lemma {:induction false} NewestExists(incs: seq<Incarnation>, x: Id) returns (y: Id)
    requires x < |incs|
    ensures x <= y && Newest(incs, y) && incs[y].name == incs[x].name
    decreases |incs| - x
  {
    y := x;
    if !Newest(incs, x) {
      var z :| x < z < |incs| && incs[z].name == incs[x].name;
      y := NewestExists(incs, z);
    }
  }

  /** What a stop finds when it looks n up after incarnation x of n was launched: the live incarnation
      it will shut down, no older than x, or nothing because the newest one has already finished. */
  ghost predicate StopSees(s: State, n: Name, x: Id, seen: Option<Id>) {
    match seen
    case Some(y) => x <= y && Newest(s.incs, y) && s.incs[y].name == n && s.incs[y].fate.Alive?
    case None => exists y: Id :: x <= y && Newest(s.incs, y) && s.incs[y].name == n && !s.incs[y].fate.Alive?
  }

  lemma LookAfterLaunch(path: seq<State>, labels: seq<Label>, k: nat, m: nat, x: Id, t: Tid)
    requires IsRun(path, labels) && k < m && StepIs(path, labels, m, t, Look)
    requires x < |path[k + 1].incs| && path[k + 1].incs[x].name == path[m].ops[t].name
    ensures t < |path[m + 1].ops| && StopSees(path[m], path[m].ops[t].name, x, path[m + 1].ops[t].seen)
  {
    RunKeepsNames(path, labels, k + 1, m, x);
    RunKeepsInv(path, labels, m);
    var s, n := path[m], path[m].ops[t].name;
    var y := NewestExists(s.incs, x);
    if n in s.running {
      assert Newest(s.incs, s.running[n]);
      assert s.running[n] == y;
    }
  }

  lemma SampleStep(path: seq<State>, labels: seq<Label>, i: nat, r: Tid)
    requires IsRun(path, labels) && StepIs(path, labels, i, r, Sample) && path[i].ops[r].kind == RestartK
    ensures i + 1 < |path|
    ensures Sampled(path[i + 1], r, path[i].ops[r].name, Epoch(path[i].co, path[i].ops[r].name))
  {
    assert Next(path[i], labels[i], path[i + 1]);
  }

  lemma LaunchStepAdds(path: seq<State>, labels: seq<Label>, k: nat, r: Tid)
    requires IsRun(path, labels) && StepIs(path, labels, k, r, Register)
    ensures k + 1 < |path| && |path[k].incs| < |path[k + 1].incs|
    ensures path[k + 1].incs[|path[k].incs|].name == path[k].ops[r].name
  {
    assert Next(path[k], labels[k], path[k + 1]);
  }

  /** A stop that looks after a restart launched sees what it launched, or what came of it. */
  lemma LookSeesLaunch(path: seq<State>, labels: seq<Label>, i: nat, k: nat, m: nat, r: Tid, t: Tid)
    requires IsRun(path, labels) && i < k < m
    requires StepIs(path, labels, i, r, Sample) && path[i].ops[r].kind == RestartK
    requires StepIs(path, labels, k, r, Register) && StepIs(path, labels, m, t, Look)
    requires path[m].ops[t].name == path[i].ops[r].name
    ensures t < |path[m + 1].ops|
    ensures StopSees(path[m], path[m].ops[t].name, |path[k].incs|, path[m + 1].ops[t].seen)
  {
    var n, e := path[i].ops[r].name, Epoch(path[i].co, path[i].ops[r].name);
    SampleStep(path, labels, i, r);
    RunKeepsSampled(path, labels, i + 1, k, r, n, e);
    LaunchStepAdds(path, labels, k, r);
    hide IsRun, StopSees;
    LookAfterLaunch(path, labels, k, m, |path[k].incs|, t);
  }

  /** Stop beats earlier restart. A restart r samples the epoch at step i; a stop t of the same name
      notes its request at a later step j. Then r launches nothing after j; and if r did launch, at a
      step k before j, the stop's lookup at step m finds that incarnation, a newer one, or none because
      the newest has finished. */
  lemma StopBeatsEarlierRestart(path: seq<State>, labels: seq<Label>, i: nat, j: nat, r: Tid, t: Tid)
    requires IsRun(path, labels) && i < j
    requires StepIs(path, labels, i, r, Sample) && path[i].ops[r].kind == RestartK
    requires StepIs(path, labels, j, t, Note) && path[j].ops[t].name == path[i].ops[r].name
    ensures forall k :: j < k ==> !StepIs(path, labels, k, r, Register)
    ensures forall k: nat, m: nat ::
      i < k < j < m && StepIs(path, labels, k, r, Register) && StepIs(path, labels, m, t, Look)
      && path[m].ops[t].name == path[i].ops[r].name ==>
      t < |path[m + 1].ops|
      && StopSees(path[m], path[m].ops[t].name, |path[k].incs|, path[m + 1].ops[t].seen)
  {
    forall k | j < k ensures !StepIs(path, labels, k, r, Register) {
      NoLaunchAfterNote(path, labels, i, j, k, r, t);
    }
    hide IsRun, StopSees;
    forall k: nat, m: nat |
      i < k < j < m && StepIs(path, labels, k, r, Register) && StepIs(path, labels, m, t, Look)
      && path[m].ops[t].name == path[i].ops[r].name
      ensures t < |path[m + 1].ops|
      ensures StopSees(path[m], path[m].ops[t].name, |path[k].incs|, path[m + 1].ops[t].seen)
    {
      LookSeesLaunch(path, labels, i, k, m, r, t);
    }
  }
}

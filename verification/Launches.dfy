/** What an operation must have seen before it launches a process, and what keeps it from launching. */
module Launches {
  import opened Common
  import opened RunnerProtocol

  /** The next step of operation t lets it through to launch: a start finds its process defined and not running, a
      restart finds it defined and no stop noted since its epoch was sampled, an update or addition defines it. */
  predicate Clears(s: State, t: Tid)
    requires t < |s.ops|
  {
    var op := s.ops[t];
    match op.pc
    case Look => op.kind == StartK && op.name !in s.running && op.name in s.defined
    case Compare => op.kind == RestartK && op.name in s.defined && Epoch(s.co, op.name) == op.epoch
    case Define => true
    case _ => false
  }

  /** At step i operation t is let through. */
  ghost predicate LetThrough(path: seq<State>, labels: seq<Label>, i: nat, t: Tid, name: Name) {
    && i < |labels| && i < |path| && labels[i].Api? && labels[i].t == t && t < |path[i].ops|
    && path[i].ops[t].name == name && Clears(path[i], t)
  }

  ghost predicate WasLetThrough(path: seq<State>, labels: seq<Label>, k: nat, t: Tid, name: Name) {
    exists i: nat :: i < k && LetThrough(path, labels, i, t, name)
  }

  /** Only the start of the project launches without asking; it is given the configured processes. */
  ghost predicate RegistersCleared(path: seq<State>, labels: seq<Label>, k: nat, t: Tid)
    requires k < |path| && t < |path[k].ops|
  {
    path[k].ops[t].pc == Register && path[k].ops[t].kind != BootK ==>
      WasLetThrough(path, labels, k, t, path[k].ops[t].name)
  }

  lemma LetThroughLater(path: seq<State>, labels: seq<Label>, k: nat, t: Tid, name: Name)
    requires WasLetThrough(path, labels, k, t, name)
    ensures WasLetThrough(path, labels, k + 1, t, name)
  {
    var i: nat :| i < k && LetThrough(path, labels, i, t, name);
    assert i < k + 1;
  }

  lemma OthersKeepOp(s: State, l: Label, s': State, t: Tid)
    requires Next(s, l, s') && t < |s.ops| && !(l.Api? && l.t == t)
    ensures t < |s'.ops| && s'.ops[t] == s.ops[t]
  {
    hide RemoveRunning, TrySend, Epoch;
  }

  lemma CoalesceClears(s: State, t: Tid)
    requires t < |s.ops| && (NeedsLock(s.ops[t].pc) || s.ops[t].pc == Unlock)
    requires s.ops[t].pc == Compare ==> s.ops[t].kind == RestartK
    ensures var s' := CoalesceStep(s, t);
            |s'.ops| == |s.ops| && s'.ops[t].name == s.ops[t].name && (s'.ops[t].pc == Register ==> Clears(s, t))
  {
  }

  lemma RegistryClears(s: State, t: Tid, failed: bool)
    requires t < |s.ops| && AtRegistry(s.ops[t].pc)
    ensures var s' := RegistryStep(s, t, failed);
            |s'.ops| == |s.ops| && s'.ops[t].name == s.ops[t].name && (s'.ops[t].pc == Register ==> Clears(s, t))
  {
  }

  lemma CheckNeverRegisters(s: State, t: Tid, a: OpAct)
    requires t < |s.ops| && AtCheck(s.ops[t].pc)
    ensures CheckStep(s, t, a).ops[t].pc != Register
  {
  }

  lemma OwnStepToRegister(s: State, l: Label, s': State, t: Tid)
    requires Next(s, l, s') && l.Api? && l.t == t && t < |s.ops|
    requires s.ops[t].pc == Compare ==> s.ops[t].kind == RestartK
    ensures t < |s'.ops| && (s'.ops[t].pc == Register ==> s'.ops[t].name == s.ops[t].name && Clears(s, t))
  {
    var pc := s.ops[t].pc;
    hide CoalesceStep, CheckStep, RegistryStep, Clears, LoopStep, LeaveStep;
    if NeedsLock(pc) || pc == Unlock {
      CoalesceClears(s, t);
    } else if AtCheck(pc) {
      CheckNeverRegisters(s, t, l.act);
    } else {
      RegistryClears(s, t, l.act == Failed);
    }
  }

  /** Only restarts compare epochs. */
  lemma {:induction false} OnlyRestartsCompare(path: seq<State>, labels: seq<Label>, k: nat, t: Tid)
    requires IsRun(path, labels) && k < |path| && t < |path[k].ops|
    ensures RestartPlace(path[k].ops[t])
  {
    if k > 0 {
      var s, l := path[k - 1], labels[k - 1];
      assert Next(s, l, path[k]);
      if t >= |s.ops| {
        SpawnedElsewhere(s, l, path[k], t);
      } else {
        OnlyRestartsCompare(path, labels, k - 1, t);
        if l.Api? && l.t == t { OwnStepInPlace(s, l, path[k], t); } else { OthersKeepOp(s, l, path[k], t); }
      }
    }
  }

  predicate RestartPlace(op: Op) {
    op.pc == Join || op.pc == Sample || op.pc == Compare || op.pc == Cleanup || op.pc == Unlock ==> op.kind == RestartK
  }

  /** What a step of the operation makes of itself. */
  lemma OwnStepMoves(s: State, t: Tid, a: OpAct)
    requires OpEnabled(s, t, a)
    ensures var op, s' := s.ops[t], OpStep(s, t, a);
            && |s'.ops| == |s.ops|
            && (RestartPlace(op) ==> RestartPlace(s'.ops[t]))
            && (forall launched :: OnTheWayOut(op, launched) ==> OnTheWayOut(s'.ops[t], launched))
  {
    var pc := s.ops[t].pc;
    hide TrySend;
    if NeedsLock(pc) || pc == Unlock {
      hide CheckStep, RegistryStep;
    } else if AtCheck(pc) {
      hide CoalesceStep, RegistryStep;
    } else {
      hide CoalesceStep, CheckStep;
    }
  }

  lemma OwnStepInPlace(s: State, l: Label, s': State, t: Tid)
    requires Next(s, l, s') && l.Api? && l.t == t && t < |s.ops| && RestartPlace(s.ops[t])
    ensures t < |s'.ops| && RestartPlace(s'.ops[t])
  {
    OwnStepMoves(s, t, l.act);
    hide OpStep, RestartPlace;
  }

  lemma SpawnedElsewhere(s: State, l: Label, s': State, t: Tid)
    requires Next(s, l, s') && |s.ops| <= t < |s'.ops|
    ensures (s'.ops[t].pc == Register ==> s'.ops[t].kind == BootK) && RestartPlace(s'.ops[t])
  {
    if l.Api? {
      OwnStepMoves(s, l.t, l.act);
    }
    hide OpStep;
  }

  lemma {:induction false} RunClears(path: seq<State>, labels: seq<Label>, k: nat, t: Tid)
    requires IsRun(path, labels) && k < |path| && t < |path[k].ops|
    ensures RegistersCleared(path, labels, k, t)
  {
    if k > 0 {
      var s, l := path[k - 1], labels[k - 1];
      assert Next(s, l, path[k]);
      if t >= |s.ops| {
        SpawnedElsewhere(s, l, path[k], t);
      } else if l.Api? && l.t == t {
        OnlyRestartsCompare(path, labels, k - 1, t);
        OwnStepToRegister(s, l, path[k], t);
        hide Next, Clears, IsRun;
        assert path[k].ops[t].pc == Register ==> LetThrough(path, labels, k - 1, t, path[k].ops[t].name);
      } else {
        hide Next, LetThrough, IsRun;
        RunClears(path, labels, k - 1, t);
        OthersKeepOp(s, l, path[k], t);
        if path[k].ops[t].pc == Register && path[k].ops[t].kind != BootK {
          LetThroughLater(path, labels, k - 1, t, path[k].ops[t].name);
        }
      }
    }
  }

  /** In every run, whoever launches an incarnation had been let through before, unless it is the project's start. */
  lemma LaunchWasLetThrough(path: seq<State>, labels: seq<Label>, k: nat, t: Tid)
    requires IsRun(path, labels) && k < |labels| && labels[k].Api? && labels[k].t == t && t < |path[k].ops|
    requires path[k].ops[t].kind != BootK && |path[k + 1].incs| > |path[k].incs|
    ensures WasLetThrough(path, labels, k, t, path[k].ops[t].name)
    ensures path[k + 1].incs[|path[k].incs|].name == path[k].ops[t].name
  {
    assert Next(path[k], labels[k], path[k + 1]);
    RunClears(path, labels, k, t);
    OnlyRegisterLaunches(path[k], labels[k], path[k + 1], t);
  }

  lemma OnlyRegisterLaunches(s: State, l: Label, s': State, t: Tid)
    requires Next(s, l, s') && l.Api? && l.t == t && t < |s.ops| && |s'.incs| > |s.incs|
    ensures s.ops[t].pc == Register && s'.incs[|s.incs|].name == s.ops[t].name
  {
  }

  /** The operation is on its way out, and has launched nothing since. */
  predicate OnTheWayOut(op: Op, launched: Option<Id>) {
    && op.launched == launched
    && (op.pc == Over || (op.kind == RestartK && (op.pc == Cleanup || op.pc == Read || op.pc == Send)))
  }

  lemma StaysOut(s: State, l: Label, s': State, t: Tid, launched: Option<Id>)
    requires Next(s, l, s') && t < |s.ops| && OnTheWayOut(s.ops[t], launched)
    ensures t < |s'.ops| && OnTheWayOut(s'.ops[t], launched)
  {
    if l.Api? && l.t == t {
      OwnStepMoves(s, t, l.act);
    } else {
      OthersKeepOp(s, l, s', t);
    }
    hide OpStep, OnTheWayOut, LeaveStep, LoopStep;
  }

  lemma {:induction false} StaysOutFrom(path: seq<State>, labels: seq<Label>, i: nat, k: nat, t: Tid,
                                        launched: Option<Id>)
    requires IsRun(path, labels) && i <= k < |path| && t < |path[i].ops| && OnTheWayOut(path[i].ops[t], launched)
    ensures t < |path[k].ops| && OnTheWayOut(path[k].ops[t], launched)
    decreases k
  {
    hide Next, OnTheWayOut;
    if i < k {
      StaysOutFrom(path, labels, i, k - 1, t, launched);
      StaysOut(path[k - 1], labels[k - 1], path[k], t, launched);
    }
  }

  /** In every run: a start that finds its process running or undefined never launches it, and neither does a restart
      whose shutdown of the running incarnation fails. */
  lemma RefusedNeverLaunches(path: seq<State>, labels: seq<Label>, i: nat, k: nat, t: Tid)
    requires IsRun(path, labels) && i < k < |path| && labels[i].Api? && labels[i].t == t && t < |path[i].ops|
    requires var op := path[i].ops[t];
             || (op.kind == StartK && op.pc == Look && (op.name in path[i].running || op.name !in path[i].defined))
             || (op.kind == RestartK && op.pc == Down && labels[i].act == Failed)
    ensures t < |path[k].ops| && path[k].ops[t].launched == path[i].ops[t].launched && path[k].ops[t].pc != Register
  {
    assert Next(path[i], labels[i], path[i + 1]);
    StaysOutFrom(path, labels, i + 1, k, t, path[i].ops[t].launched);
  }

  /** A restart whose shutdown succeeds, or that found nothing to shut down, goes on to compare its epoch. */
  lemma RestartGoesOn(s: State, l: Label, s': State, t: Tid)
    requires Next(s, l, s') && l.Api? && l.t == t && t < |s.ops| && s.ops[t].kind == RestartK
    requires (s.ops[t].pc == Down && l.act == Go) || (s.ops[t].pc == Look && s.ops[t].name !in s.running)
    ensures t < |s'.ops| && s'.ops[t].pc == Compare
  {
  }

  /** The channel of running counts never holds more than its capacity. */
  lemma {:induction false} QueueFits(path: seq<State>, labels: seq<Label>, k: nat)
    requires IsRun(path, labels) && k < |path|
    ensures |path[k].comp.queue| <= CAP
  {
    if k > 0 {
      QueueFits(path, labels, k - 1);
      assert Next(path[k - 1], labels[k - 1], path[k]);
      StepFits(path[k - 1], labels[k - 1], path[k]);
    }
  }

  lemma StepFits(s: State, l: Label, s': State)
    requires Next(s, l, s') && |s.comp.queue| <= CAP
    ensures |s'.comp.queue| <= CAP
  {
  }
}

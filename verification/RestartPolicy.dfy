/** Whether a command that has exited starts again is up to the restart policy, a stop, and nothing else. */
module RestartPolicy {
  import opened Common
  import opened IncarnationProtocol

  /** The command has just exited and nobody has asked to stop it: its policy wants another start, and the limit leaves
      room for one. */
  predicate RestartDue(inc: Incarnation) {
    && !inc.ctl.isStopped
    && match inc.conf.policy
       case Always => RoomForRestart(inc)
       case OnFailure => inc.exitCode != 0 && inc.exitCode !in inc.conf.successCodes && RoomForRestart(inc)
       case _ => false
  }

  predicate RoomForRestart(inc: Incarnation) {
    inc.conf.maxRestarts == 0 || inc.restarts < inc.conf.maxRestarts
  }

  predicate OnTheWay(phase: Phase) {
    phase.Bump? || phase.Backoff? || phase.Start?
  }

  predicate Ending(phase: Phase) {
    phase.EndA? || phase.EndB? || phase.Left?
  }

  /** After its n-th start the command has started again or is on the way to; or the wait before the next start was cut
      short, since the run context is cancelled. */
  predicate GoesOn(inc: Incarnation, n: nat) {
    inc.starts > n || (inc.starts == n && (OnTheWay(inc.phase) || (Ending(inc.phase) && inc.ctl.cancelled)))
  }

  /** The n-th start was the last. */
  predicate IsOver(inc: Incarnation, n: nat) {
    inc.starts == n && Ending(inc.phase)
  }

  lemma RunKeepsVerdict(inc: Incarnation, a: RunAct, n: nat)
    requires RunEnabled(inc, a)
    ensures GoesOn(inc, n) ==> GoesOn(RunSelf(inc, a), n)
    ensures IsOver(inc, n) ==> IsOver(RunSelf(inc, a), n)
  {
  }

  lemma ShutKeepsVerdict(inc: Incarnation, step: ShutPc, n: nat)
    ensures GoesOn(inc, n) ==> GoesOn(ShutSelf(inc, step), n)
    ensures IsOver(inc, n) ==> IsOver(ShutSelf(inc, step), n)
  {
  }

  /** The verdict: the restart is counted and the command starts again, or the incarnation ends. */
  lemma JudgeDecides(inc: Incarnation)
    requires RunEnabled(inc, Judge)
    ensures RestartDue(inc) ==> GoesOn(RunSelf(inc, Judge), inc.starts) && RunSelf(inc, Judge).phase.Bump?
    ensures !RestartDue(inc) ==> IsOver(RunSelf(inc, Judge), inc.starts)
  {
  }

  lemma NextKeepsVerdict(s: State, l: Label, s': State, x: Id, n: nat)
    requires Next(s, l, s') && x < |s.incs|
    ensures x < |s'.incs|
    ensures GoesOn(s.incs[x], n) ==> GoesOn(s'.incs[x], n)
    ensures IsOver(s.incs[x], n) ==> IsOver(s'.incs[x], n)
  {
    hide RunSelf, ShutSelf;
    match l
    case Runs(id, a) => RunKeepsVerdict(s.incs[id], a, n);
    case Shuts(sid) => ShutKeepsVerdict(s.incs[s.shutdowns[sid].target], s.shutdowns[sid].step, n);
    case _ =>
  }

  lemma {:induction false} RunKeepsVerdictFrom(path: seq<State>, labels: seq<Label>, i: nat, k: nat, x: Id, n: nat)
    requires IsRun(path, labels) && i <= k < |path| && x < |path[i].incs|
    ensures x < |path[k].incs|
    ensures GoesOn(path[i].incs[x], n) ==> GoesOn(path[k].incs[x], n)
    ensures IsOver(path[i].incs[x], n) ==> IsOver(path[k].incs[x], n)
    decreases k
  {
    hide Next, GoesOn, IsOver;
    if i < k {
      RunKeepsVerdictFrom(path, labels, i, k - 1, x, n);
      NextKeepsVerdict(path[k - 1], labels[k - 1], path[k], x, n);
    }
  }

  /** In every run, whenever an exit is judged: if a restart is due the command starts again, unless the run context is
      cancelled first; and if none is due it never does. */
  lemma RestartsAsDue(path: seq<State>, labels: seq<Label>, i: nat, k: nat, x: Id)
    requires IsRun(path, labels) && i < |labels| && labels[i] == Runs(x, Judge) && i < k < |path|
    ensures x < |path[i].incs| && x < |path[k].incs|
    ensures RestartDue(path[i].incs[x]) ==> GoesOn(path[k].incs[x], path[i].incs[x].starts)
    ensures !RestartDue(path[i].incs[x]) ==> IsOver(path[k].incs[x], path[i].incs[x].starts)
  {
    hide RestartDue, GoesOn, IsOver;
    assert Next(path[i], labels[i], path[i + 1]);
    JudgeDecides(path[i].incs[x]);
    RunKeepsVerdictFrom(path, labels, i + 1, k, x, path[i].incs[x].starts);
  }
}

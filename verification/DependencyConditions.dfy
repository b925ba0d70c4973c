/** What an incarnation has been told about its dependencies by the time it starts: each one it found had met its
    condition. */
module DependencyConditions {
  import opened Common
  import opened IncarnationProtocol
  import opened StopEffect
  import DependencyWaits

  /** The condition of a dependency, in terms of what the incarnation waited on has signalled and how it exited. */
  predicate Met(c: Condition, on: Incarnation) {
    match c
    case Completed => on.sig.done
    case CompletedSuccessfully => on.sig.done && (on.exitCode == 0 || on.exitCode in on.conf.successCodes)
    case Healthy => on.sig.readyClosed && on.sig.healthy
    case LogReady => on.sig.log == LogOk
    case Started => on.sig.started || on.ctl.cancelled
  }

  /** The condition can no longer be met: it finished with another code, its readiness or its log line was given up. A
      completion and a start cannot fail. */
  predicate Failed(c: Condition, on: Incarnation) {
    match c
    case CompletedSuccessfully => on.sig.done && on.exitCode != 0 && on.exitCode !in on.conf.successCodes
    case Healthy => on.sig.readyClosed && !on.sig.healthy
    case LogReady => on.sig.log == LogFailed
    case _ => false
  }

  /** A wait can end as soon as its condition is met or has failed, and not before. */
  lemma WaitEndsWhenDecided(s: State, x: Id)
    requires x < |s.incs| && Parked(s, s.incs[x])
    ensures var (c, on) := Awaited(s, s.incs[x]);
            && (Enabled(s, Waits(x, Resolve)) <==> Met(c, on) || Failed(c, on))
            && !(Met(c, on) && Failed(c, on))
  {
  }

  /** At step i incarnation x leaves a wait it was parked in for `dep`. */
  ghost predicate ResolvesAt(path: seq<State>, labels: seq<Label>, i: nat, x: Id, dep: Name) {
    && i < |labels| && i < |path| && labels[i] == Waits(x, Resolve) && x < |path[i].incs|
    && Parked(path[i], path[i].incs[x]) && path[i].incs[x].phase.dep == dep
  }

  /** At step i incarnation x is let past `dep`: nothing was registered under the name, or what it waited on was, and
      meets the condition. */
  ghost predicate LetPast(path: seq<State>, labels: seq<Label>, i: nat, x: Id, dep: Name) {
    && i < |labels| && i < |path|
    && (labels[i] == Waits(x, Look(dep, None))
        || (ResolvesAt(path, labels, i, x, dep)
            && var (c, on) := Awaited(path[i], path[i].incs[x]); on.name == dep && Met(c, on)))
  }

  ghost predicate WasLetPast(path: seq<State>, labels: seq<Label>, k: nat, x: Id, dep: Name) {
    exists i: nat :: i < k && LetPast(path, labels, i, x, dep)
  }

  /** Past its dependencies: about to run, or running, or started before. */
  predicate PastDependencies(inc: Incarnation) {
    inc.starts > 0 || inc.phase.Enter? || inc.phase.Start? || inc.phase.Alive? || inc.phase.Exited? || inc.phase.Bump?
    || inc.phase.Backoff?
  }

  /** The dependencies an incarnation still has to be let past. */
  function Remaining(inc: Incarnation): set<Name> {
    match inc.phase
    case Scan(rem) => rem
    case Wait(dep, _, rem) => rem + {dep}
    case _ => if PastDependencies(inc) then {} else inc.conf.deps.Keys
  }

  /** A wait that is given up leaves nothing to rely on, but then the run context is cancelled. */
  predicate CountsOn(inc: Incarnation) {
    PastDependencies(inc) || ((inc.phase.Scan? || inc.phase.Wait?) && !inc.ctl.cancelled)
  }

  ghost predicate AllPast(path: seq<State>, labels: seq<Label>, k: nat, x: Id)
    requires k < |path| && x < |path[k].incs|
  {
    var inc := path[k].incs[x];
    CountsOn(inc) ==>
      forall dep :: dep in inc.conf.deps && dep !in Remaining(inc) ==> WasLetPast(path, labels, k, x, dep)
  }

  lemma WasLetPastLater(path: seq<State>, labels: seq<Label>, k: nat, x: Id, dep: Name)
    requires WasLetPast(path, labels, k, x, dep)
    ensures WasLetPast(path, labels, k + 1, x, dep)
  {
    var i: nat :| i < k && LetPast(path, labels, i, x, dep);
    assert i < k + 1;
  }

  lemma RunKeepsPast(inc: Incarnation, a: RunAct)
    requires RunEnabled(inc, a)
    ensures RunSelf(inc, a).conf == inc.conf
    ensures CountsOn(RunSelf(inc, a)) ==> CountsOn(inc) && Remaining(inc) == {}
  {
  }

  lemma ShutKeepsPast(inc: Incarnation, step: ShutPc)
    ensures var inc' := ShutSelf(inc, step);
            && inc'.conf == inc.conf && inc'.phase == inc.phase && (CountsOn(inc') ==> CountsOn(inc))
            && Remaining(inc') == Remaining(inc)
  {
  }

  /** One step of the dependency loop: the one dependency it takes off the list, if any, has been let past. */
  lemma WaitStepLetsPast(path: seq<State>, labels: seq<Label>, k: nat, x: Id, a: WaitAct, dep: Name)
    requires k < |labels| && k + 1 < |path| && labels[k] == Waits(x, a) && WaitEnabled(path[k], x, a)
    requires path[k + 1] == WaitStep(path[k], x, a) && DependencyWaits.WaitInv(path[k], path[k].incs[x])
    requires dep in path[k].incs[x].conf.deps && CountsOn(path[k + 1].incs[x])
    requires dep !in Remaining(path[k + 1].incs[x]) && NotStartedYet(path[k].incs[x])
    ensures CountsOn(path[k].incs[x]) && path[k + 1].incs[x].conf == path[k].incs[x].conf
    ensures dep !in Remaining(path[k].incs[x]) || LetPast(path, labels, k, x, dep)
  {
    var s, inc := path[k], path[k].incs[x];
    match a
    case Look(_, _) =>
    case Resolve =>
      if dep == inc.phase.dep {
        assert ResolvesAt(path, labels, k, x, dep);
        assert Met(Awaited(s, inc).0, Awaited(s, inc).1);
      }
    case GiveUp =>
    case Scanned =>
  }

  lemma OtherWaitKeeps(s: State, y: Id, a: WaitAct, x: Id)
    requires WaitEnabled(s, y, a) && x < |s.incs| && x != y
    ensures var inc, inc' := s.incs[x], WaitStep(s, y, a).incs[x];
            inc'.conf == inc.conf && CountsOn(inc') == CountsOn(inc) && Remaining(inc') == Remaining(inc)
  {
  }

  /** What one step leaves to show for a dependency: it had been let past before, or is now. */
  lemma StepLetsPast(path: seq<State>, labels: seq<Label>, k: nat, x: Id, dep: Name)
    requires k < |labels| && k + 1 < |path| && Next(path[k], labels[k], path[k + 1]) && DependencyWaits.Inv(path[k])
    requires x < |path[k].incs| && dep in path[k + 1].incs[x].conf.deps
    requires CountsOn(path[k + 1].incs[x]) && dep !in Remaining(path[k + 1].incs[x]) && NotStartedYet(path[k].incs[x])
    ensures dep in path[k].incs[x].conf.deps && CountsOn(path[k].incs[x])
    ensures dep !in Remaining(path[k].incs[x]) || LetPast(path, labels, k, x, dep)
  {
    hide RunSelf, ShutSelf, RunEnabled, WaitStep, WaitEnabled, NotStartedYet, DependencyWaits.WaitInv, LetPast;
    match labels[k]
    case Waits(y, a) =>
      if y == x {
        ConfKept(path[k], x, a);
        WaitStepLetsPast(path, labels, k, x, a, dep);
      } else {
        OtherWaitKeeps(path[k], y, a, x);
      }
    case Runs(y, a) => if y == x { RunKeepsPast(path[k].incs[x], a); }
    case Shuts(sid) =>
      var target := path[k].shutdowns[sid].target;
      if target == x { ShutKeepsPast(path[k].incs[x], path[k].shutdowns[sid].step); }
    case _ =>
  }

  lemma ConfKept(s: State, x: Id, a: WaitAct)
    requires WaitEnabled(s, x, a)
    ensures WaitStep(s, x, a).incs[x].conf == s.incs[x].conf
  {
  }

  lemma BornWithNothing(s: State, l: Label, s': State, x: Id)
    requires Next(s, l, s') && |s.incs| <= x < |s'.incs|
    ensures !CountsOn(s'.incs[x])
  {
  }

  lemma StepKeepsPast(path: seq<State>, labels: seq<Label>, k: nat, x: Id)
    requires k < |labels| && k + 1 < |path| && Next(path[k], labels[k], path[k + 1]) && DependencyWaits.Inv(path[k])
    requires x < |path[k].incs| && x < |path[k + 1].incs| && NotStartedYet(path[k].incs[x])
    requires AllPast(path, labels, k, x)
    ensures AllPast(path, labels, k + 1, x)
  {
    hide Next, LetPast, WasLetPast, CountsOn, Remaining, NotStartedYet, DependencyWaits.Inv;
    var inc := path[k + 1].incs[x];
    forall dep | CountsOn(inc) && dep in inc.conf.deps && dep !in Remaining(inc)
      ensures WasLetPast(path, labels, k + 1, x, dep)
    {
      StepLetsPast(path, labels, k, x, dep);
      if dep in Remaining(path[k].incs[x]) {
        NowLetPast(path, labels, k, x, dep);
      } else {
        WasLetPastLater(path, labels, k, x, dep);
      }
    }
  }

  lemma NowLetPast(path: seq<State>, labels: seq<Label>, k: nat, x: Id, dep: Name)
    requires LetPast(path, labels, k, x, dep)
    ensures WasLetPast(path, labels, k + 1, x, dep)
  {
    hide LetPast;
  }

  lemma {:induction false} RunLetsPast(path: seq<State>, labels: seq<Label>, k: nat, x: Id)
    requires IsRun(path, labels) && k < |path| && x < |path[k].incs|
    ensures AllPast(path, labels, k, x)
  {
    if k > 0 {
      assert Next(path[k - 1], labels[k - 1], path[k]);
      if x >= |path[k - 1].incs| {
        BornWithNothing(path[k - 1], labels[k - 1], path[k], x);
      } else {
        hide Next, AllPast, NotStartedYet, DependencyWaits.Inv;
        NoEarlyStart(path, labels, k - 1, x);
        RunLetsPast(path, labels, k - 1, x);
        DependencyWaits.RunKeepsInv(path, labels, k - 1);
        StepKeepsPast(path, labels, k - 1, x);
      }
    }
  }

  /** In every run, an incarnation that has got past its dependencies was let past each of them: it found nothing
      registered under the name, or what it found had met the condition, at the moment the wait ended. */
  lemma DependenciesMet(path: seq<State>, labels: seq<Label>, k: nat, x: Id, dep: Name)
    requires IsRun(path, labels) && k < |path| && x < |path[k].incs|
    requires PastDependencies(path[k].incs[x]) && dep in path[k].incs[x].conf.deps
    ensures WasLetPast(path, labels, k, x, dep)
  {
    RunLetsPast(path, labels, k, x);
    NoEarlyStart(path, labels, k, x);
    assert Remaining(path[k].incs[x]) == {};
  }

  // ----- A condition that is not met -----

  /** Its dependency failed it: it has not started, and when its end has been noted its exit code is 1. */
  predicate WontRun(inc: Incarnation) {
    inc.starts == 0
    && (inc.phase.Skip? || (inc.exitCode == 1 && (inc.phase.EndA? || inc.phase.EndB? || inc.phase.Left?)))
  }

  lemma RunKeepsWontRun(inc: Incarnation, a: RunAct)
    requires RunEnabled(inc, a) && WontRun(inc)
    ensures WontRun(RunSelf(inc, a))
  {
  }

  lemma ShutKeepsWontRun(inc: Incarnation, step: ShutPc)
    requires WontRun(inc)
    ensures WontRun(ShutSelf(inc, step))
  {
  }

  lemma StepKeepsWontRun(s: State, l: Label, s': State, x: Id)
    requires Next(s, l, s') && x < |s.incs| && WontRun(s.incs[x])
    ensures x < |s'.incs| && WontRun(s'.incs[x])
  {
    hide RunSelf, ShutSelf;
    match l
    case Runs(y, a) => if y == x { RunKeepsWontRun(s.incs[x], a); }
    case Shuts(sid) => if s.shutdowns[sid].target == x { ShutKeepsWontRun(s.incs[x], s.shutdowns[sid].step); }
    case _ =>
  }

  lemma {:induction false} WontRunStays(path: seq<State>, labels: seq<Label>, i: nat, k: nat, x: Id)
    requires IsRun(path, labels) && i <= k < |path| && x < |path[i].incs| && WontRun(path[i].incs[x])
    ensures x < |path[k].incs| && WontRun(path[k].incs[x])
    decreases k
  {
    hide Next, WontRun;
    if i < k {
      WontRunStays(path, labels, i, k - 1, x);
      StepKeepsWontRun(path[k - 1], labels[k - 1], path[k], x);
    }
  }

  /** In every run, an incarnation that leaves a wait goes on with its other dependencies if the condition is met, and
      otherwise the condition has failed and it never starts. */
  lemma ConditionDecides(path: seq<State>, labels: seq<Label>, i: nat, k: nat, x: Id, dep: Name)
    requires IsRun(path, labels) && ResolvesAt(path, labels, i, x, dep) && i < k < |path|
    ensures x < |path[i + 1].incs| && x < |path[k].incs|
    ensures var inc := path[i].incs[x];
            var (c, on) := Awaited(path[i], inc);
            if Met(c, on) then path[i + 1].incs[x].phase == Scan(inc.phase.rem)
            else Failed(c, on) && WontRun(path[k].incs[x])
  {
    assert Next(path[i], labels[i], path[i + 1]);
    NoEarlyStart(path, labels, i, x);
    var (c, on) := Awaited(path[i], path[i].incs[x]);
    StaysThere(path, labels, i, k, x);
    WaitEndsWhenDecided(path[i], x);
    if !Met(c, on) {
      UnmetSkips(path[i], x);
      WontRunStays(path, labels, i + 1, k, x);
    }
  }

  lemma {:induction false} StaysThere(path: seq<State>, labels: seq<Label>, i: nat, k: nat, x: Id)
    requires IsRun(path, labels) && i <= k < |path| && x < |path[i].incs|
    ensures x < |path[k].incs|
    decreases k
  {
    hide RunSelf, ShutSelf;
    if i < k {
      StaysThere(path, labels, i, k - 1, x);
      assert Next(path[k - 1], labels[k - 1], path[k]);
    }
  }

  lemma UnmetSkips(s: State, x: Id)
    requires WaitEnabled(s, x, Resolve) && NotStartedYet(s.incs[x])
    requires !Met(Awaited(s, s.incs[x]).0, Awaited(s, s.incs[x]).1)
    ensures WontRun(WaitStep(s, x, Resolve).incs[x])
  {
  }

  /** Nor does it ever start if it finds a dependency that it wants healthy, and that nobody probes. */
  lemma UnprobedNeverHealthy(path: seq<State>, labels: seq<Label>, i: nat, k: nat, x: Id, dep: Name, on: Id)
    requires IsRun(path, labels) && i < |labels| && i < k < |path| && labels[i] == Waits(x, Look(dep, Some(on)))
    requires x < |path[i].incs| && on < |path[i].incs|
    requires dep in path[i].incs[x].conf.deps && path[i].incs[x].conf.deps[dep] == Healthy
    requires !path[i].incs[on].conf.readinessProbe && !path[i].incs[on].conf.livenessProbe
    ensures x < |path[k].incs| && WontRun(path[k].incs[x])
  {
    assert Next(path[i], labels[i], path[i + 1]);
    NoEarlyStart(path, labels, i, x);
    WontRunStays(path, labels, i + 1, k, x);
  }

  // ----- A wait that is given up -----

  /** Stopped before it got past its dependencies. */
  predicate Stranded(inc: Incarnation) {
    inc.starts == 0 && inc.ctl.cancelled
    && (inc.phase.Scan? || inc.phase.Wait? || inc.phase.Abort? || inc.phase.Skip? || inc.phase.EndA? || inc.phase.EndB?
        || inc.phase.Left?)
  }

  lemma StepKeepsStranded(s: State, l: Label, s': State, x: Id)
    requires Next(s, l, s') && x < |s.incs| && Stranded(s.incs[x])
    ensures x < |s'.incs| && Stranded(s'.incs[x])
  {
    hide ShutSelf, RunSelf;
    match l
    case Runs(y, a) => if y == x { RunKeepsStranded(s.incs[x], a); }
    case Shuts(sid) => if s.shutdowns[sid].target == x { ShutKeepsStranded(s.incs[x], s.shutdowns[sid].step); }
    case _ =>
  }

  lemma RunKeepsStranded(inc: Incarnation, a: RunAct)
    requires RunEnabled(inc, a) && Stranded(inc)
    ensures Stranded(RunSelf(inc, a))
  {
  }

  lemma ShutKeepsStranded(inc: Incarnation, step: ShutPc)
    requires Stranded(inc)
    ensures Stranded(ShutSelf(inc, step))
  {
  }

  lemma {:induction false} StrandedStays(path: seq<State>, labels: seq<Label>, i: nat, k: nat, x: Id)
    requires IsRun(path, labels) && i <= k < |path| && x < |path[i].incs| && Stranded(path[i].incs[x])
    ensures x < |path[k].incs| && Stranded(path[k].incs[x])
    decreases k
  {
    hide Next, Stranded;
    if i < k {
      StrandedStays(path, labels, i, k - 1, x);
      StepKeepsStranded(path[k - 1], labels[k - 1], path[k], x);
    }
  }

  /** In every run a wait is given up only by an incarnation whose run context is cancelled, and that never starts. A
      wait for a start has no result, so after it the other dependencies are looked at; any other wait ends the loop. */
  lemma GivenUpNeverStarts(path: seq<State>, labels: seq<Label>, i: nat, k: nat, x: Id, dep: Name)
    requires IsRun(path, labels) && i < |labels| && i < k < |path| && labels[i] == Waits(x, GiveUp)
    requires x < |path[i].incs| && Parked(path[i], path[i].incs[x]) && path[i].incs[x].phase.dep == dep
    ensures path[i].incs[x].ctl.cancelled && x < |path[i + 1].incs|
    ensures path[i + 1].incs[x].phase ==
            if path[i].incs[x].conf.deps[dep] == Started then Scan(path[i].incs[x].phase.rem) else Abort
    ensures x < |path[k].incs| && path[k].incs[x].starts == 0
  {
    assert Next(path[i], labels[i], path[i + 1]);
    NoEarlyStart(path, labels, i, x);
    StrandedStays(path, labels, i + 1, k, x);
  }

  /** Stopping an incarnation that waits for its dependencies always lets it end: its own steps can take it to its end
      at once, whatever the others are doing. */
  lemma {:induction false} StoppedWaitCanEnd(path0: seq<State>, labels0: seq<Label>, x: Id)
    returns (path: seq<State>, labels: seq<Label>)
    requires IsRun(path0, labels0) && x < |path0[|labels0|].incs| && Stranded(path0[|labels0|].incs[x])
    ensures IsRun(path, labels) && path0 <= path && labels0 <= labels
    ensures x < |path[|labels|].incs| && path[|labels|].incs[x].phase.Left? && path[|labels|].incs[x].starts == 0
    ensures forall k :: |labels0| <= k < |labels| ==>
              (labels[k].Waits? && labels[k].id == x) || (labels[k].Runs? && labels[k].id == x)
    decreases StepsToEnd(path0[|labels0|].incs[x].phase)
  {
    var s := path0[|labels0|];
    if s.incs[x].phase.Left? {
      path, labels := path0, labels0;
    } else {
      DependencyWaits.RunKeepsInv(path0, labels0, |labels0|);
      var dep := "";
      if s.incs[x].phase.Scan? && s.incs[x].phase.rem != {} {
        dep :| dep in s.incs[x].phase.rem;
      }
      StepTowardsEnd(s, x, dep);
      hide Next, Enabled, Apply, Stranded, StepsToEnd, DependencyWaits.Inv;
      path, labels := Extend(path0, labels0, OwnStepToEnd(x, s.incs[x], dep));
      path, labels := StoppedWaitCanEnd(path, labels, x);
    }
  }

  function StepsToEnd(phase: Phase): nat {
    match phase
    case Wait(_, _, rem) => |rem| + 6
    case Scan(rem) => |rem| + 5
    case Abort => 4
    case Skip => 3
    case EndA => 2
    case EndB => 1
    case _ => 0
  }

  function OwnStepToEnd(x: Id, inc: Incarnation, dep: Name): Label {
    match inc.phase
    case Wait(_, _, _) => Waits(x, GiveUp)
    case Scan(rem) => Waits(x, if rem == {} then Scanned else Look(dep, None))
    case Abort => Runs(x, Aborted)
    case Skip => Runs(x, Skipped)
    case EndA => Runs(x, CancelContexts)
    case _ => Runs(x, MarkDone)
  }

  lemma StepTowardsEnd(s: State, x: Id, dep: Name)
    requires DependencyWaits.Inv(s) && x < |s.incs| && Stranded(s.incs[x]) && !s.incs[x].phase.Left?
    requires s.incs[x].phase.Scan? && s.incs[x].phase.rem != {} ==> dep in s.incs[x].phase.rem
    ensures var l := OwnStepToEnd(x, s.incs[x], dep);
            && Enabled(s, l) && x < |Apply(s, l).incs| && Stranded(Apply(s, l).incs[x])
            && StepsToEnd(Apply(s, l).incs[x].phase) < StepsToEnd(s.incs[x].phase)
            && ((l.Waits? && l.id == x) || (l.Runs? && l.id == x))
  {
    assert DependencyWaits.WaitInv(s, s.incs[x]);
    hide DependencyWaits.Inv, ShutStep, LaunchStep;
    if s.incs[x].phase.Scan? && s.incs[x].phase.rem != {} {
      assert s.incs[x].phase.rem == (s.incs[x].phase.rem - {dep}) + {dep};
    }
  }

  // ----- Exit codes -----

  /** Incarnation y waited for its health in vain at this step. */
  ghost predicate HealthFailsAt(s: State, l: Label, y: Id) {
    && l.Waits? && l.wa == Resolve && l.id < |s.incs| && Parked(s, s.incs[l.id]) && s.incs[l.id].phase.on == y
    && s.incs[l.id].conf.deps[s.incs[l.id].phase.dep] == Healthy && y < |s.incs| && !s.incs[y].sig.healthy
  }

  /** An exit code changes when the command exits, to its code; when a process is skipped, to 1; and when somebody has
      waited for its health in vain, to 1. Nothing else changes it. */
  lemma ExitCodeChanges(s: State, l: Label, s': State, y: Id)
    requires Next(s, l, s') && y < |s.incs|
    ensures y < |s'.incs|
    ensures s'.incs[y].exitCode ==
            if l.Runs? && l.id == y && l.ra.Exit? then l.ra.code
            else if l == Runs(y, Skipped) || HealthFailsAt(s, l, y) then 1
            else s.incs[y].exitCode
  {
    hide ShutStep;
    match l
    case Shuts(sid) => ShutKeepsCode(s, sid, y);
    case _ =>
  }

  lemma ShutKeepsCode(s: State, sid: Sid, y: Id)
    requires ShutEnabled(s, sid) && y < |s.incs|
    ensures |ShutStep(s, sid).incs| == |s.incs| && ShutStep(s, sid).incs[y].exitCode == s.incs[y].exitCode
  {
  }
}

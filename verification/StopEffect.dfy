/** What a no-restart stop and max_restarts bound: command starts and the restart counter. */
module StopEffect {
  import opened Common
  import opened IncarnationProtocol

  // ----- Command starts after a stop -----

  /** Phases from which the run loop may still start the command. */
  predicate CanStart(phase: Phase) {
    phase.Unborn? || phase.Scan? || phase.Wait? || phase.Enter? || phase.Start? || phase.Bump? || phase.Backoff?
  }

  predicate WaitsForDependencies(phase: Phase) {
    phase.Unborn? || phase.Scan? || phase.Wait?
  }

  /** A stop has been requested and the command starts at most `limit` times in all. */
  predicate StoppedWithin(inc: Incarnation, limit: nat) {
    && inc.starts <= limit
    && (CanStart(inc.phase) ==> inc.ctl.isStopped && inc.starts < limit)
    && (inc.phase.Alive? || inc.phase.Exited? ==> inc.ctl.isStopped)
  }

  /** The run context was cancelled while the incarnation waited for its dependencies. */
  predicate CutWhileWaiting(inc: Incarnation) {
    && inc.ctl.cancelled && inc.starts == 0
    && (WaitsForDependencies(inc.phase) || inc.phase.Abort? || inc.phase.Skip?
        || inc.phase.EndA? || inc.phase.EndB? || inc.phase.Left?)
  }

  predicate NotStartedYet(inc: Incarnation) {
    WaitsForDependencies(inc.phase) || inc.phase.Abort? || inc.phase.Skip? || inc.phase.Enter? ==> inc.starts == 0
  }

  lemma RunKeepsStop(inc: Incarnation, a: RunAct, limit: nat)
    requires RunEnabled(inc, a)
    ensures StoppedWithin(inc, limit) ==> StoppedWithin(RunSelf(inc, a), limit)
    ensures CutWhileWaiting(inc) ==> CutWhileWaiting(RunSelf(inc, a))
    ensures NotStartedYet(inc) ==> NotStartedYet(RunSelf(inc, a))
  {
  }

  lemma ShutKeepsStop(inc: Incarnation, step: ShutPc, limit: nat)
    ensures StoppedWithin(inc, limit) ==> StoppedWithin(ShutSelf(inc, step), limit)
    ensures CutWhileWaiting(inc) ==> CutWhileWaiting(ShutSelf(inc, step))
    ensures NotStartedYet(inc) ==> NotStartedYet(ShutSelf(inc, step))
  {
  }

  /** A step leaves incarnation x alone, or moves it as one of its own or a shutdown's steps does. */
  lemma NextKeepsStop(s: State, l: Label, s': State, x: Id, limit: nat)
    requires Next(s, l, s') && x < |s.incs|
    ensures x < |s'.incs| && s'.incs[x].name == s.incs[x].name
    ensures StoppedWithin(s.incs[x], limit) ==> StoppedWithin(s'.incs[x], limit)
    ensures CutWhileWaiting(s.incs[x]) ==> CutWhileWaiting(s'.incs[x])
    ensures NotStartedYet(s.incs[x]) ==> NotStartedYet(s'.incs[x])
  {
    hide RunSelf, ShutSelf;
    match l
    case Runs(id, a) => RunKeepsStop(s.incs[id], a, limit); NameKept(s.incs[id], a);
    case Shuts(sid) =>
      ShutKeepsStop(s.incs[s.shutdowns[sid].target], s.shutdowns[sid].step, limit);
      ShutNameKept(s.incs[s.shutdowns[sid].target], s.shutdowns[sid].step);
    case _ =>
  }

  lemma NameKept(inc: Incarnation, a: RunAct)
    requires RunEnabled(inc, a)
    ensures RunSelf(inc, a).name == inc.name && RunSelf(inc, a).conf == inc.conf
  {
  }

  lemma ShutNameKept(inc: Incarnation, step: ShutPc)
    ensures ShutSelf(inc, step).name == inc.name && ShutSelf(inc, step).conf == inc.conf
  {
  }

  lemma {:induction false} RunKeepsStopFrom(path: seq<State>, labels: seq<Label>, i: nat, k: nat, x: Id, limit: nat)
    requires IsRun(path, labels) && i <= k < |path| && x < |path[i].incs|
    ensures x < |path[k].incs|
    ensures StoppedWithin(path[i].incs[x], limit) ==> StoppedWithin(path[k].incs[x], limit)
    ensures CutWhileWaiting(path[i].incs[x]) ==> CutWhileWaiting(path[k].incs[x])
    decreases k
  {
    hide Next;
    if i < k {
      RunKeepsStopFrom(path, labels, i, k - 1, x, limit);
      NextKeepsStop(path[k - 1], labels[k - 1], path[k], x, limit);
    }
  }

  lemma {:induction false} NoEarlyStart(path: seq<State>, labels: seq<Label>, k: nat, x: Id)
    requires IsRun(path, labels) && k < |path| && x < |path[k].incs|
    ensures NotStartedYet(path[k].incs[x])
  {
    if k > 0 {
      if x < |path[k - 1].incs| {
        hide Next;
        NoEarlyStart(path, labels, k - 1, x);
        NextKeepsStop(path[k - 1], labels[k - 1], path[k], x, 0);
      } else {
        BornUnstarted(path[k - 1], labels[k - 1], path[k], x);
      }
    }
  }

  lemma BornUnstarted(s: State, l: Label, s': State, x: Id)
    requires Next(s, l, s') && |s.incs| <= x < |s'.incs|
    ensures l.NewIncarnationState? && x == |s.incs| && s'.incs[x] == Fresh(l.name, l.conf, CarriedRestarts(s, l.name))
  {
  }

  /** Step k of the run is step `step` of shutdown sid, on incarnation x. */
  ghost predicate ShutsAt(path: seq<State>, labels: seq<Label>, k: nat, sid: Sid, step: ShutPc, x: Id) {
    && k < |labels| && k < |path|
    && labels[k] == Shuts(sid) && sid < |path[k].shutdowns| && path[k].shutdowns[sid] == Shutdown(x, step)
    && x < |path[k].incs|
  }

  /** After a no-restart stop of an incarnation its command is started at most once more, and not at all
      when it was running, had exited, or was past its run loop at the time. */
  lemma StopBoundsStarts(path: seq<State>, labels: seq<Label>, i: nat, k: nat, sid: Sid, x: Id)
    requires IsRun(path, labels) && i < k < |path| && ShutsAt(path, labels, i, sid, Prepare, x)
    ensures x < |path[k].incs|
    ensures path[k].incs[x].starts <= path[i].incs[x].starts + if CanStart(path[i].incs[x].phase) then 1 else 0
  {
    var limit := path[i].incs[x].starts + if CanStart(path[i].incs[x].phase) then 1 else 0;
    assert StoppedWithin(path[i + 1].incs[x], limit) by {
      assert Next(path[i], labels[i], path[i + 1]);
    }
    RunKeepsStopFrom(path, labels, i + 1, k, x, limit);
  }

  // ----- The one start that may follow -----

  /** Nothing but the stop itself can keep the command from starting: neither a cancelled context that is looked at on
      the way, nor an unfulfilled dependency. */
  predicate StillStarts(s: State, x: Id) {
    && x < |s.incs|
    && var inc := s.incs[x];
       match inc.phase
       case Scan(rem) => rem <= inc.conf.deps.Keys && !inc.ctl.cancelled
       case Wait(_, _, rem) =>
         && Parked(s, inc) && rem <= inc.conf.deps.Keys && !inc.ctl.cancelled
         && var (c, on) := Awaited(s, inc); Happened(c, on) && Satisfied(c, on)
       case Enter => inc.status == Terminating ==> !inc.ctl.cancelled
       case Start => true
       case Bump => true
       case Backoff => true
       case _ => false
  }

  /** How many steps of its own an incarnation is away from starting its command. */
  function StepsToStart(phase: Phase): nat {
    match phase
    case Wait(_, _, rem) => |rem| + 6
    case Scan(rem) => |rem| + 5
    case Enter => 4
    case Bump => 3
    case Backoff => 2
    case _ => 1
  }

  /** The next of these steps. */
  function StepTowardsStart(x: Id, inc: Incarnation, dep: Name): Label {
    match inc.phase
    case Scan(rem) => Waits(x, if rem == {} then Scanned else Look(dep, None))
    case Wait(_, _, _) => Waits(x, Resolve)
    case Enter => Runs(x, Begin(true))
    case Bump => Runs(x, CountRestart)
    case Backoff => Runs(x, Wake(true))
    case _ => Runs(x, StartCommand(true))
  }

  lemma WaitsTowardsStart(s: State, x: Id, dep: Name)
    requires StillStarts(s, x) && (s.incs[x].phase.Scan? || s.incs[x].phase.Wait?)
    requires s.incs[x].phase.Scan? && s.incs[x].phase.rem != {} ==> dep in s.incs[x].phase.rem
    ensures var l := StepTowardsStart(x, s.incs[x], dep);
            && Enabled(s, l) && StillStarts(Apply(s, l), x) && Apply(s, l).incs[x].starts == s.incs[x].starts
            && StepsToStart(Apply(s, l).incs[x].phase) < StepsToStart(s.incs[x].phase)
            && Apply(s, l).shutdowns == s.shutdowns
  {
    hide RunSelf, RunEnabled, ShutStep, LaunchStep;
    if s.incs[x].phase.Scan? && s.incs[x].phase.rem != {} {
      assert s.incs[x].phase.rem == (s.incs[x].phase.rem - {dep}) + {dep};
    }
  }

  lemma RunsTowardsStart(s: State, x: Id, dep: Name)
    requires StillStarts(s, x) && !s.incs[x].phase.Scan? && !s.incs[x].phase.Wait?
    ensures var l, starts := StepTowardsStart(x, s.incs[x], dep), s.incs[x].starts;
            && Enabled(s, l) && x < |Apply(s, l).incs| && Apply(s, l).shutdowns == s.shutdowns
            && if s.incs[x].phase.Start? then Apply(s, l).incs[x].starts == starts + 1
               else && StillStarts(Apply(s, l), x) && Apply(s, l).incs[x].starts == starts
                    && StepsToStart(Apply(s, l).incs[x].phase) < StepsToStart(s.incs[x].phase)
  {
    hide WaitStep, WaitEnabled, ShutStep, LaunchStep;
  }

  /** From there a run goes on to one more start. */
  lemma {:induction false} ComesToStart(path0: seq<State>, labels0: seq<Label>, x: Id)
    returns (path: seq<State>, labels: seq<Label>)
    requires IsRun(path0, labels0) && StillStarts(path0[|labels0|], x)
    ensures IsRun(path, labels) && path0 <= path && labels0 <= labels && |labels| > |labels0|
    ensures x < |path[|labels|].incs| && path[|labels|].incs[x].starts == path0[|labels0|].incs[x].starts + 1
    decreases StepsToStart(path0[|labels0|].incs[x].phase)
  {
    hide Next, Enabled, Apply, StillStarts, StepTowardsStart, StepsToStart;
    var s := path0[|labels0|];
    assert x < |s.incs| by { StillThere(s, x); }
    var dep := "";
    if s.incs[x].phase.Scan? && s.incs[x].phase.rem != {} {
      dep :| dep in s.incs[x].phase.rem;
    }
    if s.incs[x].phase.Scan? || s.incs[x].phase.Wait? {
      WaitsTowardsStart(s, x, dep);
    } else {
      RunsTowardsStart(s, x, dep);
    }
    path, labels := Extend(path0, labels0, StepTowardsStart(x, s.incs[x], dep));
    if !s.incs[x].phase.Start? {
      path, labels := ComesToStart(path, labels, x);
    }
  }

  lemma StillThere(s: State, x: Id)
    requires StillStarts(s, x)
    ensures x < |s.incs|
  {
  }

  lemma PrepareLetsStart(s: State, sid: Sid, x: Id)
    requires StillStarts(s, x) && sid < |s.shutdowns| && s.shutdowns[sid] == Shutdown(x, Prepare)
    ensures Enabled(s, Shuts(sid)) && StillStarts(Apply(s, Shuts(sid)), x)
    ensures Apply(s, Shuts(sid)).incs[x].starts == s.incs[x].starts
  {
    hide WaitStep, RunSelf, LaunchStep;
  }

  /** The one start more is not prevented by the stop: whatever an incarnation is about when the stop is requested, if
      nothing else stands in the way, the run can go on to a start. */
  lemma StopLetsStart(path0: seq<State>, labels0: seq<Label>, sid: Sid, x: Id)
    returns (path: seq<State>, labels: seq<Label>)
    requires IsRun(path0, labels0) && StillStarts(path0[|labels0|], x)
    requires sid < |path0[|labels0|].shutdowns| && path0[|labels0|].shutdowns[sid] == Shutdown(x, Prepare)
    ensures IsRun(path, labels) && path0 <= path && ShutsAt(path, labels, |labels0|, sid, Prepare, x)
    ensures x < |path[|labels|].incs| && path[|labels|].incs[x].starts == path0[|labels0|].incs[x].starts + 1
  {
    var s := path0[|labels0|];
    PrepareLetsStart(s, sid, x);
    StillThere(s, x);
    hide Next, Enabled, Apply, StillStarts;
    path, labels := Extend(path0, labels0, Shuts(sid));
    path, labels := ComesToStart(path, labels, x);
  }

  /** What an incarnation can be about when it is stopped, and may still start. */
  datatype Moment = AtScan | AtWait | AtEnter | AtStart | AtBump | AtBackoff

  predicate IsAt(m: Moment, phase: Phase) {
    match m
    case AtScan => phase.Scan?
    case AtWait => phase.Wait?
    case AtEnter => phase.Enter?
    case AtStart => phase.Start?
    case AtBump => phase.Bump?
    case AtBackoff => phase.Backoff?
  }

  /** Each of these moments is reached in some run, with the last incarnation. */
  lemma ReachesMoment(m: Moment, n: Name, d: Name) returns (path: seq<State>, labels: seq<Label>, x: Id)
    requires n != d
    ensures IsRun(path, labels) && StillStarts(path[|labels|], x) && IsAt(m, path[|labels|].incs[x].phase)
    ensures path[|labels|].shutdowns == []
  {
    if m.AtScan? || m.AtWait? {
      path, labels, x := ReachesWait(m.AtWait?, n, d);
    } else {
      path, labels := ReachesLoop(m, n);
      x := 0;
    }
  }

  lemma ReachesWait(waiting: bool, n: Name, d: Name) returns (path: seq<State>, labels: seq<Label>, x: Id)
    requires n != d
    ensures IsRun(path, labels) && StillStarts(path[|labels|], x) && path[|labels|].shutdowns == []
    ensures IsAt(if waiting then AtWait else AtScan, path[|labels|].incs[x].phase)
  {
    path, labels := ReachesScan(n, d);
    hide Next;
    if waiting {
      path, labels := Extend(path, labels, Waits(1, Look(d, Some(0))));
    }
    x := 1;
  }

  lemma ReachesScan(n: Name, d: Name) returns (path: seq<State>, labels: seq<Label>)
    ensures IsRun(path, labels) && path[|labels|].shutdowns == [] && |path[|labels|].incs| == 2
    ensures var inc, on := path[|labels|].incs[1], path[|labels|].incs[0];
            && inc.phase == Scan({d}) && inc.conf.deps == map[d := Started] && !inc.ctl.cancelled
            && on.name == d && !on.phase.Unborn? && on.sig.started
  {
    path, labels := ReachesEnter(d, Config(map[], Always, 0, {}, false, false));
    hide Next;
    path, labels := ExtendRun(path, labels, 0, Begin(true));
    var conf := Config(map[d := Started], Always, 0, {}, false, false);
    path, labels := Extend(path, labels, NewIncarnationState(n, conf));
    path, labels := Extend(path, labels, AddRunning(1));
  }

  lemma ReachesLoop(m: Moment, n: Name) returns (path: seq<State>, labels: seq<Label>)
    requires m.AtEnter? || m.AtStart? || m.AtBump? || m.AtBackoff?
    ensures IsRun(path, labels) && |path[|labels|].incs| == 1 && path[|labels|].shutdowns == []
    ensures StillStarts(path[|labels|], 0) && IsAt(m, path[|labels|].incs[0].phase)
  {
    hide Next, Enabled, Apply;
    if m.AtEnter? {
      path, labels := ReachesEnter(n, Config(map[], Always, 0, {}, false, false));
    } else {
      path, labels := ReachesStart(n);
      if !m.AtStart? {
        path, labels := ReachesBump(path, labels);
        if m.AtBackoff? {
          path, labels := ExtendRun(path, labels, 0, CountRestart);
        }
      }
    }
  }

  lemma ReachesStart(n: Name) returns (path: seq<State>, labels: seq<Label>)
    ensures IsRun(path, labels) && |path[|labels|].incs| == 1 && path[|labels|].shutdowns == []
    ensures var inc := path[|labels|].incs[0];
            inc.phase.Start? && inc.conf.policy == Always && inc.conf.maxRestarts == 0 && !inc.ctl.isStopped
  {
    hide Next, Enabled, Apply;
    path, labels := ReachesEnter(n, Config(map[], Always, 0, {}, false, false));
    path, labels := ExtendRun(path, labels, 0, Begin(true));
  }

  lemma ReachesBump(path0: seq<State>, labels0: seq<Label>) returns (path: seq<State>, labels: seq<Label>)
    requires IsRun(path0, labels0) && |path0[|labels0|].incs| == 1 && path0[|labels0|].shutdowns == []
    requires var inc := path0[|labels0|].incs[0];
             inc.phase.Start? && inc.conf.policy == Always && inc.conf.maxRestarts == 0 && !inc.ctl.isStopped
    ensures IsRun(path, labels) && |path[|labels|].incs| == 1 && path[|labels|].shutdowns == []
    ensures path[|labels|].incs[0].phase.Bump?
  {
    hide Next, Enabled, Apply;
    path, labels := ExtendRun(path0, labels0, 0, StartCommand(true));
    path, labels := ExtendRun(path, labels, 0, Exit(0));
    path, labels := ExtendRun(path, labels, 0, Judge);
  }

  /** The one start more does happen, whatever the incarnation is about when the stop is requested: before its run loop
      begins, at a dependency, just before the command starts, or between two starts. */
  lemma OneStartMayFollow(m: Moment, n: Name, d: Name)
    returns (path: seq<State>, labels: seq<Label>, i: nat, sid: Sid, x: Id)
    requires n != d
    ensures IsRun(path, labels) && ShutsAt(path, labels, i, sid, Prepare, x) && IsAt(m, path[i].incs[x].phase)
    ensures x < |path[|labels|].incs| && path[|labels|].incs[x].starts == path[i].incs[x].starts + 1
  {
    path, labels, x := ReachesMoment(m, n, d);
    SpawnLetsStart(path[|labels|], x);
    hide Next, Enabled, Apply, StillStarts;
    path, labels := Extend(path, labels, SpawnShutdown(x, false));
    i, sid := |labels|, 0;
    var longer, more := StopLetsStart(path, labels, sid, x);
    assert longer[i] == path[i];
    path, labels := longer, more;
  }

  lemma SpawnLetsStart(s: State, x: Id)
    requires StillStarts(s, x) && s.shutdowns == []
    ensures Enabled(s, SpawnShutdown(x, false))
    ensures var s' := Apply(s, SpawnShutdown(x, false));
            s'.incs == s.incs && s'.shutdowns == [Shutdown(x, Prepare)] && StillStarts(s', x)
  {
  }

  /** An incarnation whose run context is cancelled while it waits for its dependencies never starts
      its command. */
  lemma StopWhileWaitingPreventsStart(path: seq<State>, labels: seq<Label>, i: nat, k: nat, sid: Sid, x: Id)
    requires IsRun(path, labels) && i < k < |path| && ShutsAt(path, labels, i, sid, Cancel, x)
    requires WaitsForDependencies(path[i].incs[x].phase)
    ensures x < |path[k].incs| && path[k].incs[x].starts == 0
  {
    NoEarlyStart(path, labels, i, x);
    assert CutWhileWaiting(path[i + 1].incs[x]) by {
      assert Next(path[i], labels[i], path[i + 1]);
    }
    RunKeepsStopFrom(path, labels, i + 1, k, x, 0);
  }

  // ----- The restart counter -----

  /** Every incarnation of n runs under the same limit m. */
  ghost predicate Capped(s: State, n: Name, m: nat) {
    forall x: Id :: x < |s.incs| && s.incs[x].name == n ==> s.incs[x].conf.maxRestarts == m
  }

  predicate CountWithin(inc: Incarnation, m: nat) {
    inc.restarts <= m && (inc.phase.Bump? ==> inc.restarts < m)
  }

  ghost predicate CountsWithin(s: State, n: Name, m: nat) {
    && (forall x: Id :: x < |s.incs| && s.incs[x].name == n ==> CountWithin(s.incs[x], m))
    && (n in s.canon ==> s.canon[n] < |s.incs| && s.incs[s.canon[n]].name == n)
  }

  lemma RunKeepsCount(inc: Incarnation, a: RunAct)
    requires RunEnabled(inc, a) && inc.conf.maxRestarts > 0 && CountWithin(inc, inc.conf.maxRestarts)
    ensures CountWithin(RunSelf(inc, a), inc.conf.maxRestarts)
  {
  }

  lemma ShutKeepsCount(inc: Incarnation, step: ShutPc)
    ensures ShutSelf(inc, step).restarts == inc.restarts && ShutSelf(inc, step).phase == inc.phase
  {
  }

  lemma NextKeepsCounts(s: State, l: Label, s': State, n: Name, m: nat)
    requires Next(s, l, s') && m > 0 && Capped(s', n, m) && CountsWithin(s, n, m)
    ensures CountsWithin(s', n, m)
  {
    hide RunSelf, ShutSelf;
    match l
    case Runs(id, a) =>
      NameKept(s.incs[id], a);
      if s.incs[id].name == n {
        assert s'.incs[id].name == n;
        RunKeepsCount(s.incs[id], a);
      }
    case Shuts(sid) =>
      ShutNameKept(s.incs[s.shutdowns[sid].target], s.shutdowns[sid].step);
      ShutKeepsCount(s.incs[s.shutdowns[sid].target], s.shutdowns[sid].step);
    case _ =>
  }

  lemma CappedBefore(s: State, l: Label, s': State, n: Name, m: nat)
    requires Next(s, l, s') && Capped(s', n, m)
    ensures Capped(s, n, m)
  {
    hide RunSelf, ShutSelf;
    match l
    case Runs(id, a) =>
      NameKept(s.incs[id], a);
      assert forall x: Id :: x < |s.incs| ==> s'.incs[x].name == s.incs[x].name && s'.incs[x].conf == s.incs[x].conf;
    case Shuts(sid) =>
      ShutNameKept(s.incs[s.shutdowns[sid].target], s.shutdowns[sid].step);
      assert forall x: Id :: x < |s.incs| ==> s'.incs[x].name == s.incs[x].name && s'.incs[x].conf == s.incs[x].conf;
    case _ => assert forall x: Id :: x < |s.incs| ==>
      s'.incs[x].name == s.incs[x].name && s'.incs[x].conf == s.incs[x].conf;
  }

  lemma {:induction false} RunKeepsCounts(path: seq<State>, labels: seq<Label>, k: nat, n: Name, m: nat)
    requires IsRun(path, labels) && k < |path| && m > 0 && Capped(path[k], n, m)
    ensures CountsWithin(path[k], n, m)
  {
    hide Next;
    if k > 0 {
      CappedBefore(path[k - 1], labels[k - 1], path[k], n, m);
      RunKeepsCounts(path, labels, k - 1, n, m);
      NextKeepsCounts(path[k - 1], labels[k - 1], path[k], n, m);
    }
  }

  /** With max_restarts m > 0 the restart counter of a process never exceeds m, although each incarnation
      takes over the counter of the one before. */
  lemma RestartsNeverExceedMax(path: seq<State>, labels: seq<Label>, k: nat, x: Id, m: nat)
    requires IsRun(path, labels) && k < |path| && x < |path[k].incs| && m > 0
    requires Capped(path[k], path[k].incs[x].name, m)
    ensures path[k].incs[x].restarts <= m
  {
    RunKeepsCounts(path, labels, k, path[k].incs[x].name, m);
  }
}

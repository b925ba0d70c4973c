/** Every condition of a dependency can be met, and the dependent then starts; and a dependency that was healthy once
    can still fail its dependent. */
module ConditionRuns {
  import opened Common
  import opened IncarnationProtocol

  function Dependency(c: Condition): Config {
    Config(map[], No, 0, {}, c == Healthy, false)
  }

  function Dependent(d: Name, c: Condition): Config {
    Config(map[d := c], No, 0, {}, false, false)
  }

  /** The dependency is running. */
  lemma DependencyRuns(d: Name, c: Condition) returns (path: seq<State>, labels: seq<Label>)
    ensures IsRun(path, labels) && |path[|labels|].incs| == 1
    ensures path[|labels|].incs[0] == RunningNow(d, Dependency(c))
  {
    hide Next;
    path, labels := ReachesEnter(d, Dependency(c));
    path, labels := ExtendRun(path, labels, 0, Begin(true));
    path, labels := ExtendRun(path, labels, 0, StartCommand(true));
  }

  function RunningNow(d: Name, conf: Config): Incarnation {
    Incarnation(d, conf, Alive, Running, 0, 0, 1, Signals(true, false, false, false, LogOpen),
                Control(false, false, false))
  }

  /** Another process comes to wait for it. */
  lemma DependentWaits(path0: seq<State>, labels0: seq<Label>, n: Name, d: Name, c: Condition)
    returns (path: seq<State>, labels: seq<Label>)
    requires IsRun(path0, labels0) && |path0[|labels0|].incs| == 1
    requires var on := path0[|labels0|].incs[0]; on.name == d && on.conf == Dependency(c) && !on.phase.Unborn?
    ensures IsRun(path, labels) && |path[|labels|].incs| == 2
    ensures path[|labels|].incs[0] == path0[|labels0|].incs[0]
    ensures var inc := path[|labels|].incs[1];
            inc.phase == Wait(d, 0, {}) && inc.conf == Dependent(d, c) && inc.starts == 0 && !inc.ctl.cancelled
            && inc.status == Pending
  {
    path, labels := Extend(path0, labels0, NewIncarnationState(n, Dependent(d, c)));
    path, labels := Extend(path, labels, AddRunning(1));
    assert d in path[|labels|].incs[1].phase.rem;
    path, labels := Extend(path, labels, Waits(1, Look(d, Some(0))));
  }

  /** The dependency does what is waited for. */
  lemma DependencyDelivers(path0: seq<State>, labels0: seq<Label>, d: Name, c: Condition)
    returns (path: seq<State>, labels: seq<Label>)
    requires IsRun(path0, labels0) && |path0[|labels0|].incs| == 2
    requires path0[|labels0|].incs[0] == RunningNow(d, Dependency(c))
    ensures IsRun(path, labels) && |path[|labels|].incs| == 2
    ensures path[|labels|].incs[1] == path0[|labels0|].incs[1]
    ensures Happened(c, path[|labels|].incs[0]) && Satisfied(c, path[|labels|].incs[0])
  {
    hide Next;
    path, labels := path0, labels0;
    if c == Completed || c == CompletedSuccessfully {
      path, labels := EndsByItself(path, labels, 0, 0);
    } else if c == Healthy {
      path, labels := ExtendRun(path, labels, 0, BecomeReady);
    } else if c == LogReady {
      path, labels := ExtendRun(path, labels, 0, LogLine);
    }
  }

  lemma DependentStarts(path0: seq<State>, labels0: seq<Label>, d: Name, c: Condition)
    returns (path: seq<State>, labels: seq<Label>)
    requires IsRun(path0, labels0) && |path0[|labels0|].incs| == 2
    requires var inc := path0[|labels0|].incs[1];
             inc.phase == Wait(d, 0, {}) && inc.conf == Dependent(d, c) && inc.starts == 0 && !inc.ctl.cancelled
             && inc.status == Pending
    requires Happened(c, path0[|labels0|].incs[0]) && Satisfied(c, path0[|labels0|].incs[0])
    ensures IsRun(path, labels) && |path[|labels|].incs| == 2
    ensures path[|labels|].incs[1].conf == Dependent(d, c) && path[|labels|].incs[1].starts == 1
  {
    hide Happened, Satisfied;
    path, labels := Extend(path0, labels0, Waits(1, Resolve));
    path, labels := Extend(path, labels, Waits(1, Scanned));
    hide Next, Enabled, Apply;
    path, labels := ExtendRun(path, labels, 1, Begin(true));
    path, labels := ExtendRun(path, labels, 1, StartCommand(true));
  }

  /** For every condition there is a run in which it is met, and the dependent starts. */
  lemma EachConditionCanBeMet(n: Name, d: Name, c: Condition) returns (path: seq<State>, labels: seq<Label>)
    requires n != d
    ensures IsRun(path, labels) && |path[|labels|].incs| == 2
    ensures path[|labels|].incs[1].conf.deps == map[d := c] && path[|labels|].incs[1].starts == 1
  {
    hide Next, Happened, Satisfied;
    path, labels := DependencyRuns(d, c);
    path, labels := DependentWaits(path, labels, n, d, c);
    path, labels := DependencyDelivers(path, labels, d, c);
    path, labels := DependentStarts(path, labels, d, c);
  }

  /** Health is looked at only when the wait ends. A dependency that has become ready and then unready, or has failed
      its probe for good, fails a dependent that comes to wait for it, although it runs on and may become ready again;
      and its own exit code is overwritten. */
  lemma LostHealthFailsDependent(n: Name, d: Name, forGood: bool) returns (path: seq<State>, labels: seq<Label>)
    requires n != d
    ensures IsRun(path, labels) && |path[|labels|].incs| == 2
    ensures var on, inc := path[|labels|].incs[0], path[|labels|].incs[1];
            && on.phase == Alive && on.exitCode == 1 && on.sig.readyClosed
            && inc.conf.deps == map[d := Healthy] && inc.phase == Skip && inc.starts == 0
  {
    hide Next;
    path, labels := DependencyRuns(d, Healthy);
    path, labels := ExtendRun(path, labels, 0, BecomeReady);
    path, labels := ExtendRun(path, labels, 0, if forGood then ProbeFatal else BecomeUnready);
    path, labels := DependentWaits(path, labels, n, d, Healthy);
    path, labels := Extend(path, labels, Waits(1, Resolve));
  }
}

/** What each flag of an incarnation tells about its past: exactly which events have happened since when. */
module Flags {
  import opened Common
  import opened IncarnationProtocol
  import opened DependencyWaits

  datatype Flag =
    | StopAsked    // isStopped
    | RunCancelled // the run context
    | BeingRestarted
    | HasStarted   // the channel that start waiters wait on is closed
    | IsDone
    | ReadyEnded   // the readiness context is cancelled, with or without success
    | IsHealthy
    | LogEnded     // likewise for the awaited log line
    | LogSeen      // the line was seen in time
    | ShownRunning // status

  /** What the incarnation shows now. */
  predicate Raised(f: Flag, inc: Incarnation) {
    match f
    case StopAsked => inc.ctl.isStopped
    case RunCancelled => inc.ctl.cancelled
    case BeingRestarted => inc.ctl.isRestarting
    case HasStarted => inc.sig.started
    case IsDone => inc.sig.done
    case ReadyEnded => inc.sig.readyClosed
    case IsHealthy => inc.sig.healthy
    case LogEnded => inc.sig.log != LogOpen
    case LogSeen => inc.sig.log == LogOk
    case ShownRunning => inc.status == Running
  }

  /** The step is this one of incarnation x itself, or of its probes and its log. */
  predicate DoesNow(l: Label, x: Id, a: RunAct) {
    l == Runs(x, a)
  }

  /** The step is this one of some shutdown of x. */
  predicate ShutsNow(s: State, l: Label, x: Id, step: ShutPc) {
    l.Shuts? && l.sid < |s.shutdowns| && s.shutdowns[l.sid] == Shutdown(x, step)
  }

  /** A shutdown ends the contexts of x: it has found the process running, or pending. */
  predicate StopsNow(s: State, l: Label, x: Id) {
    x < |s.incs| && ((ShutsNow(s, l, x, IfRunning) && s.incs[x].status == Running) || ShutsNow(s, l, x, Release))
  }

  /** Whether the step raises the flag of x. */
  predicate Raises(f: Flag, s: State, l: Label, x: Id) {
    x < |s.incs|
    && var inc := s.incs[x];
       match f
       case StopAsked => ShutsNow(s, l, x, Prepare)
       case RunCancelled => ShutsNow(s, l, x, Cancel)
       case BeingRestarted => ShutsNow(s, l, x, Mark)
       case HasStarted => DoesNow(l, x, Begin(true)) && !(inc.status == Terminating && inc.ctl.cancelled)
       case IsDone => DoesNow(l, x, MarkDone) || ShutsNow(s, l, x, Finish)
       case ReadyEnded =>
         DoesNow(l, x, BecomeReady) || (inc.conf.readinessProbe && (DoesNow(l, x, CancelContexts) || StopsNow(s, l, x)))
       case IsHealthy => DoesNow(l, x, BecomeReady)
       case LogEnded =>
         DoesNow(l, x, LogLine) || DoesNow(l, x, CancelContexts) || StopsNow(s, l, x) || ShutsNow(s, l, x, Tail)
       case LogSeen => DoesNow(l, x, LogLine) && inc.sig.log == LogOpen
       case ShownRunning => DoesNow(l, x, StartCommand(true)) || DoesNow(l, x, StartCommand(false))
  }

  /** Whether it takes the flag back. */
  predicate Lowers(f: Flag, s: State, l: Label, x: Id) {
    match f
    case StopAsked => DoesNow(l, x, Judge)
    case IsHealthy =>
      DoesNow(l, x, BecomeUnready) || DoesNow(l, x, ProbeFatal) || DoesNow(l, x, CountRestart) || StopsNow(s, l, x)
    case ShownRunning =>
      DoesNow(l, x, ProbeFatal) || DoesNow(l, x, CountRestart) || DoesNow(l, x, CancelContexts) || StopsNow(s, l, x)
    case _ => false
  }

  lemma OwnStepFlag(f: Flag, s: State, x: Id, a: RunAct)
    requires x < |s.incs| && RunEnabled(s.incs[x], a) && (f == ShownRunning ==> StatusFits(s.incs[x]))
    ensures Raised(f, RunSelf(s.incs[x], a)) <==>
            Raises(f, s, Runs(x, a), x) || (Raised(f, s.incs[x]) && !Lowers(f, s, Runs(x, a), x))
  {
  }

  lemma ShutStepFlag(f: Flag, s: State, sid: Sid)
    requires ShutEnabled(s, sid)
    ensures var u := s.shutdowns[sid];
            Raised(f, ShutSelf(s.incs[u.target], u.step)) <==>
            Raises(f, s, Shuts(sid), u.target) || (Raised(f, s.incs[u.target]) && !Lowers(f, s, Shuts(sid), u.target))
  {
  }

  /** Nothing is shown as running before the command has started. */
  predicate StatusFits(inc: Incarnation) {
    BeforeStart(inc.phase) ==> inc.status == Pending || inc.status == Terminating
  }

  lemma StepKeepsStatusFit(s: State, l: Label, s': State, x: Id)
    requires Next(s, l, s') && x < |s.incs| && StatusFits(s.incs[x])
    ensures x < |s'.incs| && StatusFits(s'.incs[x])
  {
    hide RunSelf, ShutSelf;
    match l
    case Runs(y, a) => if y == x { RunKeepsStatusFit(s.incs[x], a); }
    case Shuts(sid) => if s.shutdowns[sid].target == x { ShutKeepsStatusFit(s.incs[x], s.shutdowns[sid].step); }
    case _ =>
  }

  lemma RunKeepsStatusFit(inc: Incarnation, a: RunAct)
    requires RunEnabled(inc, a) && StatusFits(inc)
    ensures StatusFits(RunSelf(inc, a))
  {
  }

  lemma ShutKeepsStatusFit(inc: Incarnation, step: ShutPc)
    requires StatusFits(inc)
    ensures StatusFits(ShutSelf(inc, step))
  {
  }

  /** One step: the flag is up afterwards if the step raises it, or it was up and the step leaves it so. */
  lemma StepFlag(f: Flag, s: State, l: Label, s': State, x: Id)
    requires Next(s, l, s') && x < |s.incs| && StatusFits(s.incs[x])
    ensures x < |s'.incs|
    ensures Raised(f, s'.incs[x]) <==> Raises(f, s, l, x) || (Raised(f, s.incs[x]) && !Lowers(f, s, l, x))
  {
    match l
    case Runs(y, a) =>
      if y == x { OwnStepFlag(f, s, x, a); } else { OthersQuiet(f, s, l, x); }
      hide Raised, Raises, Lowers, RunSelf;
    case Shuts(sid) =>
      if s.shutdowns[sid].target == x { ShutStepFlag(f, s, sid); } else { OthersQuiet(f, s, l, x); }
      hide Raised, Raises, Lowers, ShutSelf;
    case _ =>
      OthersQuiet(f, s, l, x);
      hide Raises, Lowers;
  }

  lemma OthersQuiet(f: Flag, s: State, l: Label, x: Id)
    requires !(l.Runs? && l.id == x)
    requires !(l.Shuts? && l.sid < |s.shutdowns| && s.shutdowns[l.sid].target == x)
    ensures !Raises(f, s, l, x) && !Lowers(f, s, l, x)
  {
  }

  lemma BornLowered(f: Flag, s: State, l: Label, s': State, x: Id)
    requires Next(s, l, s') && |s.incs| <= x < |s'.incs|
    ensures !Raised(f, s'.incs[x]) && StatusFits(s'.incs[x])
  {
  }

  /** Some earlier step raised the flag, and none has taken it back since. */
  ghost predicate RaisedSince(f: Flag, path: seq<State>, labels: seq<Label>, k: nat, x: Id) {
    exists i: nat :: i < k && RaisedAt(f, path, labels, i, k, x)
  }

  ghost predicate RaisedAt(f: Flag, path: seq<State>, labels: seq<Label>, i: nat, k: nat, x: Id) {
    && i < k <= |labels| && k < |path| && Raises(f, path[i], labels[i], x)
    && forall j: nat :: i < j < k ==> !Lowers(f, path[j], labels[j], x)
  }

  lemma RaisedSinceMore(f: Flag, path: seq<State>, labels: seq<Label>, k: nat, x: Id)
    requires k < |labels| && k + 1 < |path|
    ensures RaisedSince(f, path, labels, k + 1, x) <==>
            || Raises(f, path[k], labels[k], x)
            || (RaisedSince(f, path, labels, k, x) && !Lowers(f, path[k], labels[k], x))
  {
    hide Raises, Lowers;
    if Raises(f, path[k], labels[k], x) {
      assert RaisedAt(f, path, labels, k, k + 1, x);
    }
    if RaisedSince(f, path, labels, k, x) && !Lowers(f, path[k], labels[k], x) {
      var i: nat :| i < k && RaisedAt(f, path, labels, i, k, x);
      assert RaisedAt(f, path, labels, i, k + 1, x);
    }
    if RaisedSince(f, path, labels, k + 1, x) && !Raises(f, path[k], labels[k], x) {
      var i: nat :| i < k + 1 && RaisedAt(f, path, labels, i, k + 1, x);
      assert RaisedAt(f, path, labels, i, k, x);
    }
  }

  lemma NothingBeforeBirth(f: Flag, path: seq<State>, labels: seq<Label>, k: nat, x: Id)
    requires IsRun(path, labels) && k < |path| && (k > 0 ==> x >= |path[k - 1].incs|)
    ensures !RaisedSince(f, path, labels, k, x)
  {
    if RaisedSince(f, path, labels, k, x) {
      var i: nat :| i < k && RaisedAt(f, path, labels, i, k, x);
      OnlyMore(path, labels, i, k - 1);
    }
  }

  lemma {:induction false} OnlyMore(path: seq<State>, labels: seq<Label>, i: nat, k: nat)
    requires IsRun(path, labels) && i <= k < |path|
    ensures |path[i].incs| <= |path[k].incs|
    decreases k
  {
    hide RunSelf, ShutSelf;
    if i < k {
      OnlyMore(path, labels, i, k - 1);
      assert Next(path[k - 1], labels[k - 1], path[k]);
    }
  }

  /** In every state of every run, each flag of an incarnation is up if and only if an event that raises it has
      happened, and none that takes it back since. */
  lemma {:induction false} FlagsTell(f: Flag, path: seq<State>, labels: seq<Label>, k: nat, x: Id)
    requires IsRun(path, labels) && k < |path| && x < |path[k].incs|
    ensures Raised(f, path[k].incs[x]) <==> RaisedSince(f, path, labels, k, x)
    ensures StatusFits(path[k].incs[x])
  {
    assert k > 0;
    var s, l := path[k - 1], labels[k - 1];
    assert Next(s, l, path[k]);
    if x >= |s.incs| {
      NothingBeforeBirth(f, path, labels, k, x);
      BornLowered(f, s, l, path[k], x);
    } else {
      hide Next, Raised, Raises, Lowers, StatusFits;
      FlagsTell(f, path, labels, k - 1, x);
      StepFlag(f, s, l, path[k], x);
      StepKeepsStatusFit(s, l, path[k], x);
      RaisedSinceMore(f, path, labels, k - 1, x);
    }
  }
}

/** The life of the incarnations of a project's processes: waiting for dependencies, the run loop with
    its restart policy, and the shutdowns other goroutines perform on them.

    Each incarnation is the goroutine `runProcess` starts for one Process object, up to the moment it
    turns to the registry (which is RunnerProtocol's subject). A shutdown is one call of stopProcess by
    some other goroutine. Every block under one mutex, every atomic and every channel operation is one
    step, but setting the status and cancelling contexts right after it are taken together. Which
    incarnation a dependency lookup finds is left open: any that was registered under that name, or none. */
module IncarnationProtocol {
  import opened Common

  type Id = nat
  type Sid = nat

  datatype Condition = Completed | CompletedSuccessfully | Healthy | LogReady | Started

  datatype Policy = No | Always | OnFailure | ExitOnFailure

  datatype Config = Config(
    deps: map<Name, Condition>,
    policy: Policy,
    maxRestarts: nat,
    successCodes: set<int>,
    readinessProbe: bool,
    livenessProbe: bool)

  predicate IsExitCodeSuccess(conf: Config, code: int) {
    code == 0 || code in conf.successCodes
  }

  datatype Status = Pending | Running | Restarting | Terminating | Final

  /** The log-ready context: still open, cancelled by the awaited line, or cancelled with a cause. */
  datatype LogSignal = LogOpen | LogOk | LogFailed

  /** Where an incarnation's goroutine is. `rem` holds the dependencies not yet looked at. */
  datatype Phase =
    | Unborn                                  // newIncarnationState ran, addRunningProcess did not
    | Scan(rem: set<Name>)                    // at the head of the dependency loop
    | Wait(dep: Name, on: Id, rem: set<Name>) // parked on incarnation `on`
    | Abort                                   // stopped while waiting
    | Skip                                    // a dependency failed: won't run
    | Enter                                   // the waits are over; run() has not begun
    | Start                                   // at the head of the run loop
    | Alive                                   // the command is running
    | Exited                                  // the command has exited
    | Bump                                    // the restart policy said yes
    | Backoff                                 // sleeping before the next start
    | EndA                                    // onProcessEnd: about to cancel the contexts
    | EndB                                    // onProcessEnd: about to mark done
    | Left                                    // finished with run(), turning to the registry

  datatype Signals = Signals(started: bool, done: bool, readyClosed: bool, healthy: bool, log: LogSignal)

  datatype Control = Control(isStopped: bool, cancelled: bool, isRestarting: bool)

  /** `starts` is history: how often the command was started. */
  datatype Incarnation = Incarnation(
    name: Name, conf: Config, phase: Phase, status: Status, exitCode: int, restarts: nat, starts: nat,
    sig: Signals, ctl: Control)

  /** The steps of stopProcess(withNoRestart = true), preceded by prepareForShutDown. */
  datatype ShutPc = Mark | Prepare | Cancel | IfRunning | IfPending | Release | Finish | Tail | Over

  datatype Shutdown = Shutdown(target: Id, step: ShutPc)

  datatype State = State(
    incs: seq<Incarnation>,
    canon: map<Name, Id>,   // whose ProcessState is the canonical one of its name
    resets: set<Name>,      // pendingRestartReset
    shutdowns: seq<Shutdown>)

  datatype WaitAct = Look(dep: Name, found: Option<Id>) | Resolve | GiveUp | Scanned

  datatype RunAct =
    | Aborted | Skipped | Begin(valid: bool) | StartCommand(ok: bool)
    | BecomeReady | BecomeUnready | ProbeFatal | LogLine | Exit(code: int)
    | Judge | CountRestart | Wake(timer: bool) | CancelContexts | MarkDone

  datatype Label =
    | Waits(id: Id, wa: WaitAct)
    | Runs(id: Id, ra: RunAct)
    | Shuts(sid: Sid)
    | NewIncarnationState(name: Name, conf: Config)
    | AddRunning(id: Id)
    | NewProcessState(name: Name)
    | ResetRestartCount(name: Name)
    | SpawnShutdown(target: Id, restarting: bool)

  // ----- The dependency loop -----

  /** Whether the event an incarnation waits for has happened on the incarnation it waits on. */
  predicate Happened(c: Condition, on: Incarnation) {
    match c
    case Completed => on.sig.done
    case CompletedSuccessfully => on.sig.done
    case Healthy => on.sig.readyClosed
    case LogReady => on.sig.log != LogOpen
    case Started => on.sig.started || on.ctl.cancelled
  }

  /** Whether the wait, once over, lets the dependency loop go on. */
  predicate Satisfied(c: Condition, on: Incarnation) {
    match c
    case Completed => true
    case CompletedSuccessfully => IsExitCodeSuccess(on.conf, on.exitCode)
    case Healthy => on.sig.healthy
    case LogReady => on.sig.log == LogOk
    case Started => true
  }

  /** Where the dependency loop goes having found incarnation `id` for `dep`. */
  function Park(c: Condition, dep: Name, id: Id, on: Config, rem: set<Name>): Phase {
    if c == Healthy && !on.readinessProbe && !on.livenessProbe then Skip else Wait(dep, id, rem)
  }

  /** An incarnation parked on `on` for a declared dependency. */
  predicate Parked(s: State, inc: Incarnation) {
    inc.phase.Wait? && inc.phase.dep in inc.conf.deps && inc.phase.on < |s.incs|
  }

  /** The condition a parked incarnation waits for, and the incarnation it waits on. */
  function Awaited(s: State, inc: Incarnation): (Condition, Incarnation)
    requires Parked(s, inc)
  {
    (inc.conf.deps[inc.phase.dep], s.incs[inc.phase.on])
  }

  predicate WaitEnabled(s: State, id: Id, a: WaitAct) {
    && id < |s.incs|
    && var inc := s.incs[id];
       match a
       case Look(dep, found) =>
         && inc.phase.Scan? && dep in inc.phase.rem && dep in inc.conf.deps
         && (found.Some? ==>
           found.value < |s.incs| && s.incs[found.value].name == dep && !s.incs[found.value].phase.Unborn?)
       case Resolve => Parked(s, inc) && Happened(Awaited(s, inc).0, Awaited(s, inc).1)
       case GiveUp => Parked(s, inc) && inc.ctl.cancelled
       case Scanned => inc.phase == Scan({})
  }

  function WaitPhase(s: State, id: Id, a: WaitAct): Phase
    requires WaitEnabled(s, id, a)
  {
    var inc := s.incs[id];
    match a
    case Look(dep, None) => Scan(inc.phase.rem - {dep})
    case Look(dep, Some(on)) => Park(inc.conf.deps[dep], dep, on, s.incs[on].conf, inc.phase.rem - {dep})
    case Resolve => if Satisfied(Awaited(s, inc).0, Awaited(s, inc).1) then Scan(inc.phase.rem) else Skip
    case GiveUp =>
      // waitForStarted has no result: the abort is noticed after the last dependency
      if Awaited(s, inc).0 == Started then Scan(inc.phase.rem) else Abort
    case Scanned => if inc.ctl.cancelled then Abort else Enter
  }

  /** A failed health wait also overwrites the awaited incarnation's exit code. */
  predicate FailsHealth(s: State, id: Id, a: WaitAct)
    requires WaitEnabled(s, id, a)
  {
    a.Resolve? && Awaited(s, s.incs[id]).0 == Healthy && !Awaited(s, s.incs[id]).1.sig.healthy
  }

  function WaitStep(s: State, id: Id, a: WaitAct): State
    requires WaitEnabled(s, id, a)
  {
    var moved := s.incs[id := s.incs[id].(phase := WaitPhase(s, id, a))];
    if FailsHealth(s, id, a)
    then var on := s.incs[id].phase.on; s.(incs := moved[on := moved[on].(exitCode := 1)])
    else s.(incs := moved)
  }

  // ----- The run loop -----

  /** isRestartable, once the stop flag has been consumed as false. */
  predicate PolicyRestarts(conf: Config, exitCode: int, restarts: nat) {
    if conf.policy == No then false
    else if !IsExitCodeSuccess(conf, exitCode) && conf.policy == ExitOnFailure then false
    else if !IsExitCodeSuccess(conf, exitCode) && conf.policy == OnFailure then
      conf.maxRestarts == 0 || restarts < conf.maxRestarts
    else if conf.policy == Always then
      conf.maxRestarts == 0 || restarts < conf.maxRestarts
    else false
  }

  predicate RunEnabled(inc: Incarnation, a: RunAct) {
    match a
    case Aborted => inc.phase.Abort?
    case Skipped => inc.phase.Skip?
    case Begin(_) => inc.phase.Enter?
    case StartCommand(_) => inc.phase.Start?
    case BecomeReady => inc.phase.Alive? && inc.conf.readinessProbe
    case BecomeUnready => inc.phase.Alive? && inc.conf.readinessProbe
    case ProbeFatal => (inc.phase.Alive? || inc.phase.Exited?) && inc.conf.readinessProbe
    case LogLine => inc.phase.Alive?
    case Exit(_) => inc.phase.Alive?
    case Judge => inc.phase.Exited?
    case CountRestart => inc.phase.Bump?
    case Wake(timer) => inc.phase.Backoff? && (timer || inc.ctl.cancelled)
    case CancelContexts => inc.phase.EndA?
    case MarkDone => inc.phase.EndB?
  }

  function CancelLog(log: LogSignal): LogSignal {
    if log == LogOpen then LogFailed else log
  }

  /** The first half of onProcessEnd: both contexts are cancelled and the status is set. */
  function ReleaseContexts(inc: Incarnation, status: Status): Incarnation {
    inc.(status := status,
         sig := inc.sig.(log := CancelLog(inc.sig.log), readyClosed := inc.sig.readyClosed || inc.conf.readinessProbe,
                         healthy := inc.sig.healthy && status != Terminating))
  }

  function RunSelf(inc: Incarnation, a: RunAct): Incarnation
    requires RunEnabled(inc, a)
  {
    match a
    case Aborted => inc.(phase := if inc.sig.done then Left else EndA)
    case Skipped => inc.(phase := EndA, exitCode := 1)
    case Begin(valid) =>
      if inc.status == Terminating && inc.ctl.cancelled then inc.(phase := Left)
      else inc.(status := if inc.status == Terminating then Pending else inc.status,
                sig := inc.sig.(started := inc.sig.started || valid),
                phase := if valid then Start else EndA)
    case StartCommand(ok) =>
      inc.(status := Running, starts := inc.starts + 1, phase := if ok then Alive else EndA)
    case BecomeReady => inc.(sig := inc.sig.(healthy := true, readyClosed := true))
    case BecomeUnready => inc.(sig := inc.sig.(healthy := false))
    case ProbeFatal =>
      inc.(sig := inc.sig.(healthy := false), status := if inc.status == Running then Terminating else inc.status)
    case LogLine => inc.(sig := inc.sig.(log := if inc.sig.log == LogOpen then LogOk else inc.sig.log))
    case Exit(code) => inc.(phase := Exited, exitCode := code)
    case Judge =>
      inc.(ctl := inc.ctl.(isStopped := false),
           phase := if !inc.ctl.isStopped && PolicyRestarts(inc.conf, inc.exitCode, inc.restarts) then Bump else EndA)
    case CountRestart =>
      inc.(phase := Backoff, status := Restarting, restarts := inc.restarts + 1, sig := inc.sig.(healthy := false))
    case Wake(timer) => inc.(phase := if timer then Start else EndA)
    case CancelContexts => ReleaseContexts(inc, Final).(phase := EndB)
    case MarkDone => inc.(phase := Left, sig := inc.sig.(done := true))
  }

  // ----- Shutdowns -----

  /** The effect of one step of a shutdown on the incarnation being shut down. */
  function ShutSelf(inc: Incarnation, step: ShutPc): Incarnation {
    match step
    case Mark => inc.(ctl := inc.ctl.(isRestarting := true))
    case Prepare => inc.(ctl := inc.ctl.(isStopped := true))
    case Cancel => inc.(ctl := inc.ctl.(cancelled := true))
    case IfRunning => if inc.status == Running then ReleaseContexts(inc, Terminating) else inc
    case Release => ReleaseContexts(inc, Terminating)
    case Finish => inc.(sig := inc.sig.(done := true))
    case Tail => inc.(sig := inc.sig.(log := CancelLog(inc.sig.log)))
    case _ => inc
  }

  /** Where the shutdown goes next; isRunning and the test for Pending are separate reads. */
  function ShutNext(inc: Incarnation, step: ShutPc): ShutPc {
    match step
    case Mark => Prepare
    case Prepare => Cancel
    case Cancel => IfRunning
    case IfRunning => if inc.status == Running then Over else IfPending
    case IfPending => if inc.status == Pending then Release else Tail
    case Release => Finish
    case Finish => Tail
    case _ => Over
  }

  predicate ShutEnabled(s: State, sid: Sid) {
    && sid < |s.shutdowns| && s.shutdowns[sid].step != Over
    && s.shutdowns[sid].target < |s.incs|
  }

  function ShutStep(s: State, sid: Sid): State
    requires ShutEnabled(s, sid)
  {
    var u := s.shutdowns[sid];
    var inc := s.incs[u.target];
    s.(incs := s.incs[u.target := ShutSelf(inc, u.step)],
       shutdowns := s.shutdowns[sid := u.(step := ShutNext(inc, u.step))])
  }

  // ----- Launching -----

  /** The counter a fresh state object starts with. */
  function CarriedRestarts(s: State, name: Name): nat {
    if name in s.resets then 0
    else if name in s.canon && s.canon[name] < |s.incs| then s.incs[s.canon[name]].restarts
    else 0
  }

  function Fresh(name: Name, conf: Config, restarts: nat): Incarnation {
    Incarnation(name, conf, Unborn, Pending, 0, restarts, 0, Signals(false, false, false, false, LogOpen),
                Control(false, false, false))
  }

  function LaunchStep(s: State, name: Name, conf: Config): State {
    s.(incs := s.incs + [Fresh(name, conf, CarriedRestarts(s, name))],
       canon := s.canon[name := |s.incs|], resets := s.resets - {name})
  }

  // ----- The whole system -----

  predicate Enabled(s: State, l: Label) {
    match l
    case Waits(id, a) => WaitEnabled(s, id, a)
    case Runs(id, a) => id < |s.incs| && RunEnabled(s.incs[id], a)
    case Shuts(sid) => ShutEnabled(s, sid)
    case NewIncarnationState(_, _) => true
    case AddRunning(id) => id < |s.incs| && s.incs[id].phase.Unborn?
    case NewProcessState(_) => true
    case ResetRestartCount(_) => true
    case SpawnShutdown(target, _) => target < |s.incs| && !s.incs[target].phase.Unborn?
  }

  function Apply(s: State, l: Label): State
    requires Enabled(s, l)
  {
    match l
    case Waits(id, a) => WaitStep(s, id, a)
    case Runs(id, a) => s.(incs := s.incs[id := RunSelf(s.incs[id], a)])
    case Shuts(sid) => ShutStep(s, sid)
    case NewIncarnationState(n, conf) => LaunchStep(s, n, conf)
    case AddRunning(id) => s.(incs := s.incs[id := s.incs[id].(phase := Scan(s.incs[id].conf.deps.Keys))])
    case NewProcessState(n) => s.(canon := s.canon - {n})
    case ResetRestartCount(n) => s.(resets := s.resets + {n})
    case SpawnShutdown(target, restarting) =>
      s.(shutdowns := s.shutdowns + [Shutdown(target, if restarting then Mark else Prepare)])
  }

  predicate Init(s: State) {
    s == State([], map[], {}, [])
  }

  predicate Next(s: State, l: Label, s': State) {
    Enabled(s, l) && s' == Apply(s, l)
  }

  /** A run: `path[k]` is the state before step k, and `path` ends with the state after the last. */
  ghost predicate IsRun(path: seq<State>, labels: seq<Label>) {
    && |path| == |labels| + 1
    && Init(path[0])
    && forall k :: 0 <= k < |labels| ==> Next(path[k], labels[k], path[k + 1])
  }

  /** A run in which one process without dependencies comes to the beginning of its run loop. */
  lemma ReachesEnter(n: Name, conf: Config) returns (path: seq<State>, labels: seq<Label>)
    requires conf.deps == map[]
    ensures IsRun(path, labels)
    ensures path[|labels|] == State([Fresh(n, conf, 0).(phase := Enter)], map[n := 0], {}, [])
  {
    path, labels := [State([], map[], {}, [])], [];
    path, labels := Extend(path, labels, NewIncarnationState(n, conf));
    path, labels := Extend(path, labels, AddRunning(0));
    assert path[|labels|].incs[0].phase == Scan({});
    path, labels := Extend(path, labels, Waits(0, Scanned));
  }

  /** A run in which incarnation x takes one more step of its run loop. */
  lemma ExtendRun(path: seq<State>, labels: seq<Label>, x: Id, a: RunAct)
    returns (path': seq<State>, labels': seq<Label>)
    requires IsRun(path, labels) && x < |path[|labels|].incs| && RunEnabled(path[|labels|].incs[x], a)
    ensures IsRun(path', labels') && |labels'| == |labels| + 1 && path <= path' && labels <= labels'
    ensures var s := path[|labels|];
            path'[|labels'|] == s.(incs := s.incs[x := RunSelf(s.incs[x], a)])
  {
    hide RunEnabled, RunSelf;
    path', labels' := Extend(path, labels, Runs(x, a));
  }

  /** What becomes of an incarnation that exits with a code, and is not restarted. */
  function Ended(inc: Incarnation, code: int): Incarnation {
    inc.(phase := Left, status := Final, exitCode := code, ctl := inc.ctl.(isStopped := false),
         sig := inc.sig.(done := true, log := CancelLog(inc.sig.log),
                         readyClosed := inc.sig.readyClosed || inc.conf.readinessProbe))
  }

  lemma EndedIs(inc: Incarnation, code: int)
    requires inc.phase == Alive && inc.conf.policy == No
    ensures RunEnabled(inc, Exit(code)) && RunEnabled(RunSelf(inc, Exit(code)), Judge)
    ensures var judged := RunSelf(RunSelf(inc, Exit(code)), Judge);
            && RunEnabled(judged, CancelContexts) && RunEnabled(RunSelf(judged, CancelContexts), MarkDone)
            && RunSelf(RunSelf(judged, CancelContexts), MarkDone) == Ended(inc, code)
  {
  }

  /** A run that goes on until incarnation x has ended by itself. */
  lemma EndsByItself(path0: seq<State>, labels0: seq<Label>, x: Id, code: int)
    returns (path: seq<State>, labels: seq<Label>)
    requires IsRun(path0, labels0) && x < |path0[|labels0|].incs|
    requires path0[|labels0|].incs[x].phase == Alive && path0[|labels0|].incs[x].conf.policy == No
    ensures IsRun(path, labels)
    ensures var s := path0[|labels0|]; path[|labels|] == s.(incs := s.incs[x := Ended(s.incs[x], code)])
  {
    hide Next;
    var s := path0[|labels0|];
    EndedIs(s.incs[x], code);
    hide RunEnabled, RunSelf;
    path, labels := ExtendRun(path0, labels0, x, Exit(code));
    path, labels := ExtendRun(path, labels, x, Judge);
    path, labels := ExtendRun(path, labels, x, CancelContexts);
    path, labels := ExtendRun(path, labels, x, MarkDone);
  }

  /** A run that takes one more step. */
  lemma Extend(path: seq<State>, labels: seq<Label>, l: Label) returns (path': seq<State>, labels': seq<Label>)
    requires IsRun(path, labels) && Enabled(path[|labels|], l)
    ensures IsRun(path', labels') && |labels'| == |labels| + 1
    ensures path <= path' && labels <= labels' && labels'[|labels|] == l
    ensures path'[|labels'|] == Apply(path[|labels|], l)
  {
    hide Enabled, Apply;
    path', labels' := path + [Apply(path[|labels|], l)], labels + [l];
    forall k | 0 <= k < |labels'| ensures Next(path'[k], labels'[k], path'[k + 1]) {
      if k < |labels| {
        assert path'[k] == path[k] && path'[k + 1] == path[k + 1] && labels'[k] == labels[k];
      }
    }
  }
}

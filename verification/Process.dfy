/** One process object as it is written: its run loop and its shutdown, as methods that update its fields
    section after section, with any actions of other goroutines in between. Whatever they do together is a
    history of the incarnation machine's steps on this object, and what a whole call achieves is stated over
    that history. */
module Process {
  import opened Common
  import opened IncarnationProtocol
  import opened RestartPolicy
  import opened StopEffect
  import opened DependencyWaits

  /** A step of the object's own goroutine or of its probes and its log, a step of somebody's shutdown, or
      a dependent whose wait for readiness failed. */
  datatype Act = Own(run: RunAct) | Shut(step: ShutPc) | HealthFails

  /** Steps of the probes and of the log reader, which run beside the run loop. */
  predicate Background(a: RunAct) {
    a.BecomeReady? || a.BecomeUnready? || a.ProbeFatal? || a.LogLine?
  }

  predicate CanAct(inc: Incarnation, a: Act) {
    a.Own? ==> RunEnabled(inc, a.run)
  }

  function DoAct(inc: Incarnation, a: Act): Incarnation
    requires CanAct(inc, a)
  {
    match a
    case Own(run) => RunSelf(inc, run)
    case Shut(step) => ShutSelf(inc, step)
    case HealthFails => inc.(exitCode := 1)
  }

  ghost predicate CanDo(inc: Incarnation, acts: seq<Act>)
    decreases |acts|
  {
    acts == [] || (CanAct(inc, acts[0]) && CanDo(DoAct(inc, acts[0]), acts[1..]))
  }

  ghost function DoAll(inc: Incarnation, acts: seq<Act>): Incarnation
    requires CanDo(inc, acts)
    decreases |acts|
  {
    if acts == [] then inc else DoAll(DoAct(inc, acts[0]), acts[1..])
  }

  lemma {:induction false} DoOneMore(inc: Incarnation, acts: seq<Act>, a: Act)
    requires CanDo(inc, acts) && CanAct(DoAll(inc, acts), a)
    ensures CanDo(inc, acts + [a]) && DoAll(inc, acts + [a]) == DoAct(DoAll(inc, acts), a)
    decreases |acts|
  {
    hide CanAct, DoAct;
    if acts == [] {
      assert acts + [a] == [a] && [a][1..] == [];
    } else {
      assert (acts + [a])[0] == acts[0] && (acts + [a])[1..] == acts[1..] + [a];
      DoOneMore(DoAct(inc, acts[0]), acts[1..], a);
    }
  }

  lemma {:induction false} DoFirst(inc: Incarnation, acts: seq<Act>, i: nat)
    requires CanDo(inc, acts) && i < |acts|
    ensures CanDo(inc, acts[..i]) && CanAct(DoAll(inc, acts[..i]), acts[i])
    ensures var at := DoAct(DoAll(inc, acts[..i]), acts[i]);
            CanDo(at, acts[i + 1..]) && DoAll(at, acts[i + 1..]) == DoAll(inc, acts)
    decreases |acts|
  {
    hide CanAct, DoAct;
    if i == 0 {
      assert acts[..0] == [];
    } else {
      DoFirst(DoAct(inc, acts[0]), acts[1..], i - 1);
      assert acts[..i][0] == acts[0] && acts[..i][1..] == acts[1..][..i - 1];
      assert acts[1..][i - 1] == acts[i] && acts[1..][i..] == acts[i + 1..];
    }
  }

  // ----- What a stop is worth -----

  lemma {:induction false} StopBounds(inc: Incarnation, acts: seq<Act>, limit: nat)
    requires CanDo(inc, acts) && StoppedWithin(inc, limit)
    ensures StoppedWithin(DoAll(inc, acts), limit)
    decreases |acts|
  {
    hide RunSelf, ShutSelf, RunEnabled;
    if acts != [] {
      match acts[0] {
        case Own(a) => RunKeepsStop(inc, a, limit);
        case Shut(step) => ShutKeepsStop(inc, step, limit);
        case HealthFails =>
      }
      StopBounds(DoAct(inc, acts[0]), acts[1..], limit);
    }
  }

  /** After every stop request in the history the command was started at most once more, and not at all if
      it was running, had exited, or was past its run loop at the time. */
  ghost predicate StopsHeeded(inc: Incarnation, acts: seq<Act>)
    requires CanDo(inc, acts)
  {
    forall i :: 0 <= i < |acts| && acts[i] == Shut(Prepare) && CanDo(inc, acts[..i]) ==>
      var at := DoAll(inc, acts[..i]);
      DoAll(inc, acts).starts <= at.starts + if CanStart(at.phase) then 1 else 0
  }

  lemma HistoryHeedsStops(inc: Incarnation, acts: seq<Act>)
    requires CanDo(inc, acts)
    ensures StopsHeeded(inc, acts)
  {
    forall i | 0 <= i < |acts| && acts[i] == Shut(Prepare) && CanDo(inc, acts[..i])
      ensures var at := DoAll(inc, acts[..i]);
              DoAll(inc, acts).starts <= at.starts + if CanStart(at.phase) then 1 else 0
    {
      DoFirst(inc, acts, i);
      var at := DoAll(inc, acts[..i]);
      StopBounds(ShutSelf(at, Prepare), acts[i + 1..], at.starts + if CanStart(at.phase) then 1 else 0);
    }
  }

  // ----- Which exits are followed by another start -----

  /** Step i of the history judges an exit of the command. */
  ghost predicate JudgesAt(inc: Incarnation, acts: seq<Act>, i: nat) {
    i < |acts| && acts[i] == Own(Judge) && CanDo(inc, acts[..i])
  }

  /** Every exit judged in the history was followed by another start if and only if a restart was due, but for a run
      context cancelled before that start. */
  ghost predicate PolicyFollowed(inc: Incarnation, acts: seq<Act>)
    requires CanDo(inc, acts)
  {
    forall i: nat :: JudgesAt(inc, acts, i) ==>
      var at := DoAll(inc, acts[..i]);
      if RestartDue(at) then GoesOn(DoAll(inc, acts), at.starts) else IsOver(DoAll(inc, acts), at.starts)
  }

  lemma {:induction false} VerdictStays(inc: Incarnation, acts: seq<Act>, n: nat)
    requires CanDo(inc, acts)
    ensures GoesOn(inc, n) ==> GoesOn(DoAll(inc, acts), n)
    ensures IsOver(inc, n) ==> IsOver(DoAll(inc, acts), n)
    decreases |acts|
  {
    hide RunSelf, ShutSelf, RunEnabled;
    if acts != [] {
      match acts[0] {
        case Own(a) => RunKeepsVerdict(inc, a, n);
        case Shut(step) => ShutKeepsVerdict(inc, step, n);
        case HealthFails =>
      }
      VerdictStays(DoAct(inc, acts[0]), acts[1..], n);
    }
  }

  lemma HistoryFollowsPolicy(inc: Incarnation, acts: seq<Act>)
    requires CanDo(inc, acts)
    ensures PolicyFollowed(inc, acts)
  {
    hide RestartDue, GoesOn, IsOver;
    forall i: nat | JudgesAt(inc, acts, i)
      ensures var at := DoAll(inc, acts[..i]);
              if RestartDue(at) then GoesOn(DoAll(inc, acts), at.starts) else IsOver(DoAll(inc, acts), at.starts)
    {
      DoFirst(inc, acts, i);
      var at := DoAll(inc, acts[..i]);
      JudgeDecides(at);
      VerdictStays(RunSelf(at, Judge), acts[i + 1..], at.starts);
    }
  }

  /** Everybody who waits for this incarnation to finish, log its line or pass its readiness probe is released. */
  predicate WaitersReleased(inc: Incarnation) {
    && Happened(Completed, inc) && Happened(CompletedSuccessfully, inc) && Happened(LogReady, inc)
    && (inc.conf.readinessProbe ==> Happened(Healthy, inc))
  }

  /** What no later action takes back. */
  predicate Lasting(inc: Incarnation, inc': Incarnation) {
    && inc'.conf == inc.conf && inc'.name == inc.name
    && (inc.sig.done ==> inc'.sig.done) && (inc.sig.readyClosed ==> inc'.sig.readyClosed)
    && (inc.sig.log != LogOpen ==> inc'.sig.log == inc.sig.log) && (inc.sig.started ==> inc'.sig.started)
    && (inc.ctl.cancelled ==> inc'.ctl.cancelled)
  }

  lemma RunLasts(inc: Incarnation, a: RunAct)
    requires RunEnabled(inc, a)
    ensures Lasting(inc, RunSelf(inc, a))
  {
  }

  lemma ShutLasts(inc: Incarnation, step: ShutPc)
    ensures Lasting(inc, ShutSelf(inc, step))
  {
  }

  lemma ActsLast(inc: Incarnation, a: Act)
    requires CanAct(inc, a)
    ensures Lasting(inc, DoAct(inc, a))
  {
    hide RunSelf, ShutSelf, RunEnabled, Lasting;
    match a
    case Own(run) => RunLasts(inc, run);
    case Shut(step) => ShutLasts(inc, step);
    case HealthFails => SameLasts(inc, 1);
  }

  lemma SameLasts(inc: Incarnation, code: int)
    ensures Lasting(inc, inc.(exitCode := code))
  {
  }

  datatype Outcome = FailsToStart | Exits(code: int, slept: bool)

  /** What other goroutines may do while the run loop, or a shutdown, is on its way. */
  predicate ByOthers(running: bool, a: Act) {
    running && a.Own? ==> Background(a.run)
  }

  /** What others make of the process when they act in turn, each if it can. */
  function AfterOthers(inc: Incarnation, others: seq<Act>, running: bool): Incarnation {
    if others == [] then inc
    else
      var mid, a := AfterOthers(inc, others[..|others| - 1], running), others[|others| - 1];
      if CanAct(mid, a) && ByOthers(running, a) then DoAct(mid, a) else mid
  }

  lemma BackgroundStays(inc: Incarnation, a: Act)
    requires CanAct(inc, a) && ByOthers(true, a)
    ensures var inc' := DoAct(inc, a);
            inc'.phase == inc.phase && inc'.restarts == inc.restarts && inc'.starts == inc.starts
            && (inc'.exitCode == inc.exitCode || (a == HealthFails && inc'.exitCode == 1))
  {
  }

  class ProcessObject {
    const name: Name
    const conf: Config
    var status: Status
    var exitCode: int
    var restarts: nat
    var started: bool
    var done: bool
    var readyClosed: bool
    var healthy: bool
    var logReady: LogSignal
    var isStopped: bool
    var cancelled: bool
    var isRestarting: bool
    /** Where the run loop is, and how often it started the command. */
    var phase: Phase
    var starts: nat
    /** Everything that happened to the object since it was made. */
    ghost const born: Incarnation
    ghost var acts: seq<Act>

    function Abs(): Incarnation
      reads this
    {
      Incarnation(name, conf, phase, status, exitCode, restarts, starts, Sig(), Ctl())
    }

    function Sig(): Signals
      reads this
    {
      Signals(started, done, readyClosed, healthy, logReady)
    }

    function Ctl(): Control
      reads this
    {
      Control(isStopped, cancelled, isRestarting)
    }

    ghost predicate Valid()
      reads this
    {
      CanDo(born, acts) && DoAll(born, acts) == Abs()
    }

    /** A new object takes over the restart count of the canonical state. Its dependencies are satisfied. */
    constructor (name: Name, conf: Config, carried: nat)
      ensures Valid() && acts == [] && Abs() == Fresh(name, conf, carried).(phase := Enter)
    {
      this.name, this.conf, restarts := name, conf, carried;
      status, exitCode, phase, starts := Pending, 0, Enter, 0;
      started, done, readyClosed, healthy, logReady := false, false, false, false, LogOpen;
      isStopped, cancelled, isRestarting := false, false, false;
      born, acts := Fresh(name, conf, carried).(phase := Enter), [];
    }

    /** The fields have just changed as the act says. */
    ghost method Record(a: Act, before: Incarnation)
      requires CanDo(born, acts) && DoAll(born, acts) == before && CanAct(before, a) && Abs() == DoAct(before, a)
      modifies `acts
      ensures Valid() && acts == old(acts) + [a] && Lasting(before, Abs())
    {
      hide CanAct, DoAct;
      DoOneMore(born, acts, a);
      ActsLast(before, a);
      acts := acts + [a];
    }

    /** The exit code is the one it was, or a dependent that waited in vain for readiness has overwritten it. */
    ghost predicate CodeKept(code: int)
      reads this
    {
      exitCode == code || (exitCode == 1 && HealthFails in acts)
    }

    /** Step i judged the exit of the command that exited with code: a restart was due exactly if the loop goes on, or
        the run context is cancelled. */
    ghost predicate Judged(i: nat, code: int, again: bool)
      reads this
    {
      && JudgesAt(born, acts, i)
      && var at := DoAll(born, acts[..i]);
         && (at.exitCode == code || (at.exitCode == 1 && HealthFails in acts))
         && (again ==> RestartDue(at)) && (!again ==> !RestartDue(at) || cancelled)
    }

    /** Another goroutine acts, if it can. */
    method Happen(a: Act, running: bool)
      requires Valid()
      modifies this
      ensures Valid() && old(acts) <= acts && Lasting(old(Abs()), Abs())
      ensures running ==> phase == old(phase) && restarts == old(restarts) && starts == old(starts)
      ensures running ==> CodeKept(old(exitCode))
      ensures if CanAct(old(Abs()), a) && ByOthers(running, a)
              then Abs() == DoAct(old(Abs()), a) && acts == old(acts) + [a]
              else Abs() == old(Abs()) && acts == old(acts)
    {
      hide CanDo, DoAll, CanAct, DoAct;
      if CanAct(Abs(), a) && ByOthers(running, a) {
        ghost var before := Abs();
        var inc := DoAct(Abs(), a);
        ActsLast(before, a);
        if running {
          BackgroundStays(before, a);
        }
        Become(inc);
        Record(a, before);
      }
    }

    lemma LastingSelf(inc: Incarnation)
      ensures Lasting(inc, inc)
    {
    }

    lemma LastingOn(a: Incarnation, b: Incarnation, c: Incarnation)
      requires Lasting(a, b) && Lasting(b, c)
      ensures Lasting(a, c)
    {
    }

    method Become(inc: Incarnation)
      requires inc.name == name && inc.conf == conf
      modifies this
      ensures Abs() == inc && acts == old(acts)
    {
      status, exitCode, restarts, phase, starts := inc.status, inc.exitCode, inc.restarts, inc.phase, inc.starts;
      Signal(inc.sig);
      isStopped, cancelled, isRestarting := inc.ctl.isStopped, inc.ctl.cancelled, inc.ctl.isRestarting;
    }

    method Signal(sig: Signals)
      modifies `started, `done, `readyClosed, `healthy, `logReady
      ensures Sig() == sig
    {
      started, done, readyClosed, healthy, logReady := sig.started, sig.done, sig.readyClosed, sig.healthy, sig.log;
    }

    /** Whatever other goroutines do meanwhile. */
    method Others(others: seq<Act>, running: bool)
      requires Valid()
      modifies this
      ensures Valid() && old(acts) <= acts && Lasting(old(Abs()), Abs())
      ensures running ==> phase == old(phase) && restarts == old(restarts) && starts == old(starts)
      ensures running ==> CodeKept(old(exitCode))
      ensures Abs() == AfterOthers(old(Abs()), others, running)
    {
      hide CanDo, DoAll, Lasting, CanAct, DoAct, ByOthers;
      ghost var before := Abs();
      LastingSelf(before);
      assert others[..|others|] == others;
      for i := 0 to |others|
        invariant Valid() && old(acts) <= acts && Lasting(before, Abs())
        invariant Abs() == AfterOthers(before, others[..i], running)
        invariant running ==> phase == old(phase) && restarts == old(restarts) && starts == old(starts)
        invariant running ==> CodeKept(old(exitCode))
      {
        ghost var mid := Abs();
        assert others[..i + 1][..i] == others[..i];
        Happen(others[i], running);
        LastingOn(before, mid, Abs());
      }
    }

    // ----- Sections -----

    method CancelReadyLog()
      modifies `logReady
      ensures logReady == CancelLog(old(logReady))
    {
      if logReady == LogOpen {
        logReady := LogFailed;
      }
    }

    /** onProcessEnd's first half: whoever waits for readiness or a log line is released. */
    method ReleaseWaiters(final: Status)
      modifies `logReady, `readyClosed, `healthy, `status
      ensures Abs() == ReleaseContexts(old(Abs()), final)
    {
      CancelReadyLog();
      readyClosed := readyClosed || conf.readinessProbe;
      status := final;
      healthy := healthy && final != Terminating;
    }

    method EndContexts(final: Status)
      requires Valid() && phase == EndA && final == Final
      modifies this
      ensures Valid() && old(acts) <= acts && phase == EndB && Lasting(old(Abs()), Abs()) && restarts == old(restarts)
      ensures exitCode == old(exitCode) && starts == old(starts)
      ensures logReady != LogOpen && (conf.readinessProbe ==> readyClosed)
    {
      hide CanDo, DoAll;
      ghost var before := Abs();
      ReleaseWaiters(final);
      phase := EndB;
      Record(Own(CancelContexts), before);
    }

    method SetDone()
      requires Valid() && phase == EndB
      modifies this
      ensures Valid() && old(acts) <= acts && phase == Left && Lasting(old(Abs()), Abs()) && restarts == old(restarts)
      ensures done && Sig() == old(Sig()).(done := true) && exitCode == old(exitCode) && starts == old(starts)
    {
      hide CanDo, DoAll;
      ghost var before := Abs();
      done, phase := true, Left;
      Record(Own(MarkDone), before);
    }

    /** onProcessEnd, from the run loop: the contexts are cancelled before the process is marked done. */
    method OnProcessEnd(others: nat -> seq<Act>)
      requires Valid() && phase == EndA
      modifies this
      ensures Valid() && old(acts) <= acts && phase == Left && WaitersReleased(Abs())
      ensures Lasting(old(Abs()), Abs()) && restarts == old(restarts) && starts == old(starts)
      ensures CodeKept(old(exitCode))
    {
      hide CanDo, DoAll;
      EndContexts(Final);
      Others(others(8), true);
      SetDone();
    }

    /** run up to the loop: a stop in progress is honoured, a stale status reset, the command validated. */
    method BeginRun(valid: bool) returns (honoured: bool)
      requires Valid() && phase == Enter
      modifies this
      ensures Valid() && old(acts) <= acts && Lasting(old(Abs()), Abs()) && restarts == old(restarts)
      ensures honoured <==> old(status) == Terminating && old(cancelled)
      ensures starts == old(starts)
      ensures phase == if honoured then Left else if valid then Start else EndA
      ensures valid && !honoured ==> started
    {
      hide CanDo, DoAll;
      ghost var before := Abs();
      honoured := false;
      if status == Terminating {
        if cancelled {
          honoured := true;
        } else {
          status := Pending;
        }
      }
      if honoured {
        phase := Left;
      } else if valid {
        started, phase := true, Start;
      } else {
        phase := EndA;
      }
      Record(Own(RunAct.Begin(valid)), before);
    }

    method StartIt(ok: bool)
      requires Valid() && phase == Start
      modifies this
      ensures Valid() && old(acts) <= acts && Lasting(old(Abs()), Abs()) && restarts == old(restarts)
      ensures phase == (if ok then Alive else EndA) && status == Running && starts == old(starts) + 1
    {
      hide CanDo, DoAll;
      ghost var before := Abs();
      status, starts, phase := Running, starts + 1, if ok then Alive else EndA;
      Record(Own(StartCommand(ok)), before);
    }

    method ExitIt(code: int)
      requires Valid() && phase == Alive
      modifies this
      ensures Valid() && old(acts) <= acts && Lasting(old(Abs()), Abs()) && restarts == old(restarts)
      ensures phase == Exited && exitCode == code && starts == old(starts)
    {
      hide CanDo, DoAll;
      ghost var before := Abs();
      exitCode, phase := code, Exited;
      Record(Own(Exit(code)), before);
    }

    /** Whether the command starts again; the stop flag is consumed. */
    method IsRestartable() returns (again: bool)
      requires Valid() && phase == Exited
      modifies this
      ensures Valid() && old(acts) <= acts && Lasting(old(Abs()), Abs()) && restarts == old(restarts)
      ensures phase == (if again then Bump else EndA) && (again <==> RestartDue(old(Abs())))
      ensures !isStopped && exitCode == old(exitCode) && starts == old(starts) && acts == old(acts) + [Own(Judge)]
    {
      hide CanDo, DoAll;
      ghost var before := Abs();
      var stopped := isStopped;
      isStopped := false;
      again := false;
      if !stopped {
        again := PolicyAllows();
      }
      phase := if again then Bump else EndA;
      Record(Own(Judge), before);
    }

    method PolicyAllows() returns (again: bool)
      ensures again == PolicyRestarts(conf, exitCode, restarts)
    {
      if conf.policy == No {
        return false;
      }
      if !IsExitCodeSuccess(conf, exitCode) && conf.policy == ExitOnFailure {
        return false;
      }
      if !IsExitCodeSuccess(conf, exitCode) && conf.policy == OnFailure {
        if conf.maxRestarts == 0 {
          return true;
        }
        return restarts < conf.maxRestarts;
      }
      if conf.policy == Always {
        if conf.maxRestarts == 0 {
          return true;
        }
        return restarts < conf.maxRestarts;
      }
      return false;
    }

    method CountIt()
      requires Valid() && phase == Bump
      modifies this
      ensures Valid() && old(acts) <= acts && Lasting(old(Abs()), Abs()) && restarts == old(restarts) + 1
      ensures phase == Backoff && starts == old(starts) && exitCode == old(exitCode)
    {
      hide CanDo, DoAll;
      ghost var before := Abs();
      status, restarts, healthy, phase := Restarting, restarts + 1, false, Backoff;
      Record(Own(CountRestart), before);
    }

    /** The back-off ends by itself, or because the run context is cancelled. */
    method Sleep(slept: bool) returns (again: bool)
      requires Valid() && phase == Backoff
      modifies this
      ensures Valid() && old(acts) <= acts && Lasting(old(Abs()), Abs()) && restarts == old(restarts)
      ensures again == (slept || !cancelled) && phase == (if again then Start else EndA) && starts == old(starts)
      ensures exitCode == old(exitCode)
    {
      hide CanDo, DoAll;
      ghost var before := Abs();
      again := slept || !cancelled;
      phase := if again then Start else EndA;
      Record(Own(Wake(again)), before);
    }

    // ----- The run loop -----

    /** One round: the command starts, exits, is judged, and sleeps before it starts again. */
    method RunOnce(outcome: Outcome, others: nat -> seq<Act>) returns (again: bool, ghost judged: nat)
      requires Valid() && phase == Start
      modifies this
      ensures Valid() && old(acts) <= acts && Lasting(old(Abs()), Abs()) && phase == if again then Start else EndA
      ensures if outcome.FailsToStart? then !again else Judged(judged, outcome.code, again)
      ensures outcome.Exits? && !again ==> CodeKept(outcome.code)
      ensures again ==> restarts == old(restarts) + 1
      ensures starts == old(starts) + 1
      ensures conf.maxRestarts > 0 && old(restarts) <= conf.maxRestarts ==> restarts <= conf.maxRestarts
    {
      hide CanDo, DoAll, Judged;
      Others(others(1), true);
      StartIt(outcome.Exits?);
      again, judged := false, 0;
      if outcome.Exits? {
        again, judged := ExitAndJudge(outcome.code, outcome.slept, others);
      }
    }

    method ExitAndJudge(code: int, slept: bool, others: nat -> seq<Act>) returns (again: bool, ghost judged: nat)
      requires Valid() && phase == Alive
      modifies this
      ensures Valid() && old(acts) <= acts && Lasting(old(Abs()), Abs()) && phase == if again then Start else EndA
      ensures Judged(judged, code, again) && (!again ==> CodeKept(code))
      ensures again ==> restarts == old(restarts) + 1
      ensures starts == old(starts)
      ensures conf.maxRestarts > 0 && old(restarts) <= conf.maxRestarts ==> restarts <= conf.maxRestarts
    {
      hide CanDo, DoAll, Lasting, RestartDue;
      ghost var start, mid := Abs(), Abs();
      Others(others(2), true);
      mid := Abs();
      ExitIt(code);
      LastingOn(start, mid, Abs());
      mid := Abs();
      Others(others(3), true);
      LastingOn(start, mid, Abs());
      mid := Abs();
      ghost var before := acts;
      judged := |acts|;
      again := IsRestartable();
      LastingOn(start, mid, Abs());
      DueHasRoom(mid);
      assert acts[..judged] == before;
      if again {
        mid := Abs();
        again := CountAndSleep(slept, others);
        LastingOn(start, mid, Abs());
        assert acts[..judged] == before;
      }
    }

    lemma DueHasRoom(inc: Incarnation)
      ensures RestartDue(inc) && inc.conf.maxRestarts > 0 ==> inc.restarts < inc.conf.maxRestarts
    {
    }

    method CountAndSleep(slept: bool, others: nat -> seq<Act>) returns (again: bool)
      requires Valid() && phase == Bump
      modifies this
      ensures Valid() && old(acts) <= acts && Lasting(old(Abs()), Abs()) && phase == if again then Start else EndA
      ensures restarts == old(restarts) + 1 && starts == old(starts) && CodeKept(old(exitCode))
      ensures !again ==> cancelled
    {
      hide CanDo, DoAll;
      Others(others(4), true);
      CountIt();
      Others(others(5), true);
      again := Sleep(slept);
    }

    /** What run returns after the given round: 1 if the command failed to start, and otherwise the exit code, after
        which no restart was due or the run context is cancelled. */
    ghost predicate Returned(result: int, last: Outcome, judged: nat)
      reads this
    {
      match last
      case FailsToStart => result == 1
      case Exits(code, _) => result == exitCode && CodeKept(code) && Judged(judged, code, false)
    }

    /** run, with any actions of the probes, the log and any number of shutdowns between any two sections. The
        command starts, exits and starts again as the policy says, until it does not or no outcome is left.
        Every stop request in between is heeded; when run returns without having met a stop in progress at
        its very beginning, everybody who waits for this process is released; and the restart counter never
        passes its limit. `others(i)` says what may happen before section i. */
    method Run(valid: bool, outcomes: seq<Outcome>, others: nat -> (nat -> seq<Act>))
      returns (result: Option<int>, honoured: bool, ghost rounds: nat, ghost judged: nat)
      requires Valid() && phase == Enter
      modifies this
      ensures Valid() && old(acts) <= acts && StopsHeeded(born, acts) && PolicyFollowed(born, acts)
      ensures result.Some? ==> phase == Left && (honoured || WaitersReleased(Abs()))
      ensures result.None? ==> phase == Start && restarts == old(restarts) + |outcomes| && rounds == |outcomes|
      ensures starts == old(starts) + rounds && rounds <= |outcomes|
      ensures honoured ==> cancelled && rounds == 0 && result == Some(0)
      ensures !honoured && !valid ==> result == Some(1) && rounds == 0
      ensures !honoured && valid && result.Some? ==> rounds > 0 && Returned(result.value, outcomes[rounds - 1], judged)
      ensures valid && !honoured ==> Happened(Started, Abs())
      ensures conf.maxRestarts > 0 && old(restarts) <= conf.maxRestarts ==> restarts <= conf.maxRestarts
    {
      hide CanDo, DoAll, StopsHeeded, PolicyFollowed, Judged;
      rounds, judged := 0, 0;
      Others(others(0)(0), true);
      honoured := BeginRun(valid);
      result := Some(if honoured then 0 else 1);
      if !honoured {
        if valid {
          result, rounds, judged := RunLoop(outcomes, others);
        } else {
          OnProcessEnd(others(0));
        }
      }
      HistoryHeedsStops(born, acts);
      HistoryFollowsPolicy(born, acts);
    }

    /** The loop, and the end of the process when it is left. */
    method RunLoop(outcomes: seq<Outcome>, others: nat -> (nat -> seq<Act>))
      returns (result: Option<int>, ghost rounds: nat, ghost judged: nat)
      requires Valid() && phase == Start && started
      modifies this
      ensures Valid() && old(acts) <= acts && started
      ensures result.Some? ==> phase == Left && WaitersReleased(Abs())
      ensures result.Some? ==> 0 < rounds <= |outcomes| && Returned(result.value, outcomes[rounds - 1], judged)
      ensures result.None? ==> phase == Start && restarts == old(restarts) + |outcomes| && rounds == |outcomes|
      ensures starts == old(starts) + rounds
      ensures conf.maxRestarts > 0 && old(restarts) <= conf.maxRestarts ==> restarts <= conf.maxRestarts
    {
      hide CanDo, DoAll, Judged, WaitersReleased;
      var again := true;
      var i := 0;
      judged := 0;
      while again && i < |outcomes|
        invariant i <= |outcomes| && (!again ==> i > 0) && (again ==> restarts == old(restarts) + i)
        invariant Valid() && old(acts) <= acts && started && phase == if again then Start else EndA
        invariant starts == old(starts) + i
        invariant !again && outcomes[i - 1].Exits? ==>
                    CodeKept(outcomes[i - 1].code) && Judged(judged, outcomes[i - 1].code, false)
        invariant conf.maxRestarts > 0 && old(restarts) <= conf.maxRestarts ==> restarts <= conf.maxRestarts
      {
        again, judged := RunOnce(outcomes[i], others(i + 1));
        i := i + 1;
      }
      rounds, result := i, None;
      if !again {
        EndRun(others(i), outcomes[i - 1], judged);
        result := Some(if outcomes[i - 1].FailsToStart? then 1 else exitCode);
      }
    }

    method EndRun(others: nat -> seq<Act>, ghost last: Outcome, ghost judged: nat)
      requires Valid() && phase == EndA
      requires last.Exits? ==> CodeKept(last.code) && Judged(judged, last.code, false)
      modifies this
      ensures Valid() && old(acts) <= acts && phase == Left && WaitersReleased(Abs())
      ensures Lasting(old(Abs()), Abs()) && restarts == old(restarts) && starts == old(starts)
      ensures last.Exits? ==> CodeKept(last.code) && Judged(judged, last.code, false)
    {
      hide CanDo, DoAll, RestartDue;
      ghost var before := acts;
      OnProcessEnd(others);
      if last.Exits? {
        assert acts[..judged] == before[..judged] && acts[judged] == before[judged];
      }
    }

    // ----- Shutting down -----

    /** One section of a shutdown, by a goroutine that is not the object's own. */
    method ShutSection(step: ShutPc)
      requires Valid()
      modifies this
      ensures Valid() && acts == old(acts) + [Shut(step)] && Lasting(old(Abs()), Abs())
      ensures Abs() == ShutSelf(old(Abs()), step)
    {
      hide CanDo, DoAll;
      ghost var before := Abs();
      match step {
        case Mark => isRestarting := true;
        case Prepare => isStopped := true;
        case Cancel => cancelled := true;
        case IfRunning =>
          if status == Running {
            ReleaseWaiters(Terminating);
          }
        case Release => ReleaseWaiters(Terminating);
        case Finish => done := true;
        case Tail => CancelReadyLog();
        case _ =>
      }
      Record(Shut(step), before);
    }

    /** shutDownNoRestart, with any actions of the run loop, the probes and other shutdowns in between. When it
        returns, the run context is cancelled, nobody waits for a log line any more, and if it found the process
        pending, nobody waits for it at all; and from its stop request on the command was started at most once
        more, or not at all, depending on where the run loop was. */
    method ShutDownNoRestart(others: nat -> seq<Act>) returns (pending: bool, ghost asked: nat)
      requires Valid()
      modifies this
      ensures Valid() && old(acts) <= acts && |old(acts)| <= asked < |acts| && acts[asked] == Shut(Prepare)
      ensures StopsHeeded(born, acts)
      ensures cancelled && Happened(LogReady, Abs()) && Lasting(old(Abs()), Abs())
      ensures pending ==> WaitersReleased(Abs())
    {
      hide CanDo, DoAll, ShutSelf, StopsHeeded;
      Others(others(0), false);
      asked := |acts|;
      ShutSection(Prepare);
      Others(others(1), false);
      ghost var before := Abs();
      ShutSection(Cancel);
      Cancelled(before);
      pending := StopProcess(others);
      HistoryHeedsStops(born, acts);
    }

    lemma Cancelled(inc: Incarnation)
      ensures ShutSelf(inc, Cancel).ctl.cancelled
    {
    }

    /** stopProcess(true), once the run context is cancelled. */
    method StopProcess(others: nat -> seq<Act>) returns (pending: bool)
      requires Valid()
      modifies this
      ensures Valid() && old(acts) <= acts && Lasting(old(Abs()), Abs()) && Happened(LogReady, Abs())
      ensures pending ==> WaitersReleased(Abs())
    {
      hide CanDo, DoAll;
      Others(others(2), false);
      var running := status == Running;
      ShutSection(IfRunning);
      pending := false;
      if !running {
        pending := StopNotRunning(others);
      }
    }

    /** The process was not running: a pending one is ended, and nobody waits for a log line any more. */
    method StopNotRunning(others: nat -> seq<Act>) returns (pending: bool)
      requires Valid()
      modifies this
      ensures Valid() && old(acts) <= acts && Lasting(old(Abs()), Abs()) && Happened(LogReady, Abs())
      ensures pending ==> WaitersReleased(Abs())
    {
      hide CanDo, DoAll;
      Others(others(3), false);
      pending := status == Pending;
      ShutSection(IfPending);
      if pending {
        EndPending(others);
      }
      Others(others(6), false);
      ShutSection(Tail);
    }

    /** A pending process is ended: whoever waits for it to finish, log its line or get ready is released. */
    method EndPending(others: nat -> seq<Act>)
      requires Valid()
      modifies this
      ensures Valid() && old(acts) <= acts && Lasting(old(Abs()), Abs()) && WaitersReleased(Abs())
    {
      hide CanDo, DoAll;
      Others(others(4), false);
      ShutSection(Release);
      Others(others(5), false);
      ShutSection(Finish);
    }
  }
}

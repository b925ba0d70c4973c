/** What a shutdown has done by the time it is over, according to the status it found at its two looks. */
module ShutdownOutcome {
  import opened Common
  import opened IncarnationProtocol
  import opened Flags

  /** Step i is this one of shutdown sid. */
  ghost predicate TakesAt(path: seq<State>, labels: seq<Label>, i: nat, sid: Sid, step: ShutPc) {
    && i < |labels| && i < |path| && labels[i] == Shuts(sid) && sid < |path[i].shutdowns|
    && path[i].shutdowns[sid].step == step && path[i].shutdowns[sid].target < |path[i].incs|
  }

  /** Step i is this one of shutdown sid, and its target has this status. */
  ghost predicate SeesAt(path: seq<State>, labels: seq<Label>, i: nat, sid: Sid, step: ShutPc, status: Status) {
    TakesAt(path, labels, i, sid, step) && path[i].incs[path[i].shutdowns[sid].target].status == status
  }

  /** Shutdown sid took this step, between step b and step k. */
  ghost predicate Took(path: seq<State>, labels: seq<Label>, b: nat, k: nat, sid: Sid, step: ShutPc) {
    exists i: nat :: b < i < k && TakesAt(path, labels, i, sid, step)
  }

  ghost predicate Saw(path: seq<State>, labels: seq<Label>, b: nat, k: nat, sid: Sid, step: ShutPc, status: Status) {
    exists i: nat :: b < i < k && SeesAt(path, labels, i, sid, step, status)
  }

  ghost function AllTaken(path: seq<State>, labels: seq<Label>, b: nat, k: nat, sid: Sid): set<ShutPc> {
    set step: ShutPc | Took(path, labels, b, k, sid, step)
  }

  /** A shutdown that goes on with `step` has taken these steps so far, and has found its target running at its first
      look, or pending at its second. */
  predicate Fits(took: set<ShutPc>, running: bool, pending: bool, step: ShutPc, restarting: bool) {
    && (step == Mark ==> restarting)
    && (Mark in took <==> restarting && step != Mark)
    && (Prepare in took <==> step != Mark && step != Prepare)
    && (Cancel in took <==> step != Mark && step != Prepare && step != Cancel)
    && (IfPending in took <==> step == Release || step == Finish || step == Tail || (step == Over && !running))
    && (Release in took <==> pending && step != Release)
    && (Finish in took <==> pending && step != Release && step != Finish)
    && (Tail in took <==> step == Over && !running)
    && (running ==> step == Over && !pending)
    && (pending ==> step == Release || step == Finish || step == Tail || step == Over)
    && (step == Release || step == Finish ==> pending)
  }

  lemma NextFits(inc: Incarnation, took: set<ShutPc>, running: bool, pending: bool, step: ShutPc, restarting: bool)
    requires Fits(took, running, pending, step, restarting) && step != Over
    ensures Fits(took + {step}, running || (step == IfRunning && inc.status == Running),
                 pending || (step == IfPending && inc.status == Pending), ShutNext(inc, step), restarting)
  {
  }

  lemma StepMovesOn(s: State, l: Label, s': State, sid: Sid)
    requires Next(s, l, s') && sid < |s.shutdowns| && s.shutdowns[sid].target < |s.incs|
    ensures sid < |s'.shutdowns| && s'.shutdowns[sid].target == s.shutdowns[sid].target < |s'.incs|
    ensures s'.shutdowns[sid].step ==
            if l == Shuts(sid) then ShutNext(s.incs[s.shutdowns[sid].target], s.shutdowns[sid].step)
            else s.shutdowns[sid].step
    ensures l == Shuts(sid) ==> s.shutdowns[sid].step != Over
  {
    hide RunSelf, RunEnabled, ShutSelf, ShutNext, WaitPhase, CarriedRestarts;
  }

  lemma SawMore(path: seq<State>, labels: seq<Label>, b: nat, k: nat, sid: Sid, step: ShutPc, status: Status)
    requires b < k
    ensures Saw(path, labels, b, k + 1, sid, step, status) <==>
            Saw(path, labels, b, k, sid, step, status) || SeesAt(path, labels, k, sid, step, status)
  {
    hide SeesAt;
  }

  lemma TookMore(path: seq<State>, labels: seq<Label>, b: nat, k: nat, sid: Sid, step: ShutPc)
    requires b < k
    ensures Took(path, labels, b, k + 1, sid, step) <==>
            Took(path, labels, b, k, sid, step) || TakesAt(path, labels, k, sid, step)
  {
    hide TakesAt;
  }

  lemma TakenMore(path: seq<State>, labels: seq<Label>, b: nat, k: nat, sid: Sid)
    requires b < k < |labels| && k < |path| && sid < |path[k].shutdowns|
    requires path[k].shutdowns[sid].target < |path[k].incs|
    ensures AllTaken(path, labels, b, k + 1, sid) ==
            AllTaken(path, labels, b, k, sid) +
            if labels[k] == Shuts(sid) then {path[k].shutdowns[sid].step} else {}
  {
    hide Took;
    forall step: ShutPc
      ensures Took(path, labels, b, k + 1, sid, step) <==>
              Took(path, labels, b, k, sid, step) || (labels[k] == Shuts(sid) && path[k].shutdowns[sid].step == step)
    {
      TookMore(path, labels, b, k, sid, step);
    }
  }

  /** The shutdown that was spawned at step b has got this far by step k. */
  ghost predicate GotThisFar(path: seq<State>, labels: seq<Label>, b: nat, k: nat, x: Id, restarting: bool)
    requires b < |path| && k < |path|
  {
    var sid := |path[b].shutdowns|;
    && sid < |path[k].shutdowns| && path[k].shutdowns[sid].target == x < |path[k].incs|
    && Fits(AllTaken(path, labels, b, k, sid), Saw(path, labels, b, k, sid, IfRunning, Running),
            Saw(path, labels, b, k, sid, IfPending, Pending), path[k].shutdowns[sid].step, restarting)
  }

  lemma JustSpawned(path: seq<State>, labels: seq<Label>, b: nat, x: Id, restarting: bool)
    requires b < |labels| && b + 1 < |path| && Next(path[b], SpawnShutdown(x, restarting), path[b + 1])
    ensures GotThisFar(path, labels, b, b + 1, x, restarting)
  {
    hide TakesAt;
    assert AllTaken(path, labels, b, b + 1, |path[b].shutdowns|) == {};
  }

  lemma GetsFurther(path: seq<State>, labels: seq<Label>, b: nat, k: nat, x: Id, restarting: bool)
    requires b < k < |labels| && k + 1 < |path| && Next(path[k], labels[k], path[k + 1])
    requires GotThisFar(path, labels, b, k, x, restarting)
    ensures GotThisFar(path, labels, b, k + 1, x, restarting)
  {
    hide Next, Took, Saw, AllTaken, Fits, ShutNext;
    var s, l, sid := path[k], labels[k], |path[b].shutdowns|;
    StepMovesOn(s, l, path[k + 1], sid);
    TakenMore(path, labels, b, k, sid);
    SawMore(path, labels, b, k, sid, IfRunning, Running);
    SawMore(path, labels, b, k, sid, IfPending, Pending);
    if l == Shuts(sid) {
      NextFits(s.incs[x], AllTaken(path, labels, b, k, sid), Saw(path, labels, b, k, sid, IfRunning, Running),
               Saw(path, labels, b, k, sid, IfPending, Pending), s.shutdowns[sid].step, restarting);
    } else {
      assert AllTaken(path, labels, b, k + 1, sid) == AllTaken(path, labels, b, k, sid);
    }
  }

  lemma {:induction false} RunGetsFurther(path: seq<State>, labels: seq<Label>, b: nat, k: nat, x: Id,
                                          restarting: bool)
    requires IsRun(path, labels) && b < k < |path| && labels[b] == SpawnShutdown(x, restarting)
    ensures GotThisFar(path, labels, b, k, x, restarting)
    decreases k
  {
    hide Next, GotThisFar;
    assert Next(path[k - 1], labels[k - 1], path[k]);
    if k == b + 1 {
      JustSpawned(path, labels, b, x, restarting);
    } else {
      RunGetsFurther(path, labels, b, k - 1, x, restarting);
      GetsFurther(path, labels, b, k - 1, x, restarting);
    }
  }

  lemma {:induction false} ConfStays(path: seq<State>, labels: seq<Label>, i: nat, k: nat, x: Id)
    requires IsRun(path, labels) && i <= k < |path| && x < |path[i].incs|
    ensures x < |path[k].incs| && path[k].incs[x].conf == path[i].incs[x].conf
    decreases k
  {
    if i < k {
      ConfStays(path, labels, i, k - 1, x);
      assert Next(path[k - 1], labels[k - 1], path[k]);
    }
  }

  /** An event that no later one takes back leaves its flag up. */
  lemma StaysRaised(f: Flag, path: seq<State>, labels: seq<Label>, i: nat, k: nat, x: Id)
    requires IsRun(path, labels) && i < k < |path| && x < |path[k].incs|
    requires f == IsDone || f == LogEnded || f == ReadyEnded || f == RunCancelled
    ensures Raises(f, path[i], labels[i], x) ==> Raised(f, path[k].incs[x])
  {
    FlagsTell(f, path, labels, k, x);
    hide Raises, IsRun;
    if Raises(f, path[i], labels[i], x) {
      assert RaisedAt(f, path, labels, i, k, x);
      assert RaisedSince(f, path, labels, k, x);
    }
  }

  /** What a step of a shutdown has done to its target is not taken back. */
  lemma EffectStays(path: seq<State>, labels: seq<Label>, i: nat, k: nat, x: Id, sid: Sid, step: ShutPc)
    requires IsRun(path, labels) && i < k < |path| && TakesAt(path, labels, i, sid, step)
    requires path[i].shutdowns[sid].target == x
    ensures x < |path[k].incs|
    ensures var inc := path[k].incs[x];
            && (step == Cancel ==> inc.ctl.cancelled)
            && (step == Finish ==> inc.sig.done)
            && (step == Tail ==> inc.sig.log != LogOpen)
            && (step == Release || SeesAt(path, labels, i, sid, IfRunning, Running) ==>
                  inc.sig.log != LogOpen && (inc.conf.readinessProbe ==> inc.sig.readyClosed))
  {
    ConfStays(path, labels, i, k, x);
    hide IsRun, Next;
    StaysRaised(RunCancelled, path, labels, i, k, x);
    StaysRaised(IsDone, path, labels, i, k, x);
    StaysRaised(LogEnded, path, labels, i, k, x);
    StaysRaised(ReadyEnded, path, labels, i, k, x);
  }

  /** In every run a shutdown that is over has cancelled the run context of its target. If its first look found the
      target running, it has ended the target's contexts and done nothing more. If not, and its second look found it
      pending, it has ended the contexts and marked the target as done. If it found neither, it has left the readiness
      context and the mark alone. The wait for a log line is over in any case. */
  lemma OutcomeOf(path: seq<State>, labels: seq<Label>, b: nat, k: nat, x: Id, restarting: bool)
    requires IsRun(path, labels) && b < k < |path| && labels[b] == SpawnShutdown(x, restarting)
    requires |path[b].shutdowns| < |path[k].shutdowns| && path[k].shutdowns[|path[b].shutdowns|].step == Over
    ensures x < |path[k].incs|
    ensures var sid, inc := |path[b].shutdowns|, path[k].incs[x];
            var running := Saw(path, labels, b, k, sid, IfRunning, Running);
            var pending := Saw(path, labels, b, k, sid, IfPending, Pending);
            && inc.ctl.cancelled && inc.sig.log != LogOpen
            && ((running || pending) && inc.conf.readinessProbe ==> inc.sig.readyClosed)
            && (pending ==> !running && inc.sig.done)
            && (Took(path, labels, b, k, sid, Mark) <==> restarting)
            && Took(path, labels, b, k, sid, Prepare)
            && (Took(path, labels, b, k, sid, IfPending) <==> !running)
            && (Took(path, labels, b, k, sid, Release) <==> pending)
            && (Took(path, labels, b, k, sid, Finish) <==> pending)
  {
    var sid := |path[b].shutdowns|;
    RunGetsFurther(path, labels, b, k, x, restarting);
    var running := Saw(path, labels, b, k, sid, IfRunning, Running);
    forall i: nat, step | b < i < k && TakesAt(path, labels, i, sid, step)
      ensures var inc := path[k].incs[x];
            && (step == Cancel ==> inc.ctl.cancelled)
            && (step == Finish ==> inc.sig.done)
            && (step == Tail ==> inc.sig.log != LogOpen)
            && (step == Release || SeesAt(path, labels, i, sid, IfRunning, Running) ==>
                  inc.sig.log != LogOpen && (inc.conf.readinessProbe ==> inc.sig.readyClosed))
    {
      RunGetsFurther(path, labels, b, i, x, restarting);
      EffectStays(path, labels, i, k, x, sid, step);
    }
    hide IsRun, TakesAt;
    forall step: ShutPc ensures step in AllTaken(path, labels, b, k, sid) <==> Took(path, labels, b, k, sid, step) {
    }
    assert AllTaken(path, labels, b, k, sid) >= {Cancel};
  }
}

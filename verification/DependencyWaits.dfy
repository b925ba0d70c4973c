/** Waits on dependencies make progress: whoever an incarnation is stuck on is itself still moving. */
module DependencyWaits {
  import opened Common
  import opened IncarnationProtocol

  // ----- Every way an incarnation ends releases its waiters -----

  predicate ContextsReleased(inc: Incarnation) {
    inc.sig.log != LogOpen && (inc.conf.readinessProbe ==> inc.sig.readyClosed)
  }

  /** Phases before the run loop has set the status itself. */
  predicate BeforeStart(phase: Phase) {
    phase.Unborn? || phase.Scan? || phase.Wait? || phase.Abort? || phase.Skip? || phase.Enter?
  }

  /** `pending` says that some shutdown has cancelled the contexts of the incarnation and is about to
      mark it done. */
  predicate ReleaseInv(inc: Incarnation, pending: bool) {
    && (inc.sig.done || pending || inc.phase.EndB? ==> ContextsReleased(inc))
    && (BeforeStart(inc.phase) ==> inc.status == Pending || inc.status == Terminating)
    && (BeforeStart(inc.phase) && inc.status == Terminating ==> inc.sig.done || pending)
    && (inc.phase.Left? ==> inc.sig.done || pending)
  }

  /** Some shutdown is between the two halves of onProcessEnd for incarnation x. */
  ghost predicate FinishPending(s: State, x: Id) {
    exists u: Sid :: u < |s.shutdowns| && s.shutdowns[u] == Shutdown(x, Finish)
  }

  /** A parked incarnation waits on one registered under the dependency's name, and a health wait is only
      ever entered on one that has a probe. */
  ghost predicate WaitInv(s: State, inc: Incarnation) {
    && (inc.phase.Scan? ==> inc.phase.rem <= inc.conf.deps.Keys)
    && (inc.phase.Wait? ==>
          && Parked(s, inc) && inc.phase.rem <= inc.conf.deps.Keys
          && s.incs[inc.phase.on].name == inc.phase.dep && !s.incs[inc.phase.on].phase.Unborn?
          && (inc.conf.deps[inc.phase.dep] == Healthy ==>
                s.incs[inc.phase.on].conf.readinessProbe || s.incs[inc.phase.on].conf.livenessProbe))
  }

  ghost predicate Inv(s: State) {
    && (forall x: Id :: x < |s.incs| ==> ReleaseInv(s.incs[x], FinishPending(s, x)))
    && (forall x: Id :: x < |s.incs| ==> WaitInv(s, s.incs[x]))
    && (forall u: Sid :: u < |s.shutdowns| ==> s.shutdowns[u].target < |s.incs|)
  }

  lemma RunKeepsRelease(inc: Incarnation, a: RunAct, pending: bool)
    requires RunEnabled(inc, a) && ReleaseInv(inc, pending)
    ensures ReleaseInv(RunSelf(inc, a), pending)
  {
  }

  /** The shutdown's own step: it becomes pending by cancelling the contexts, and stops being so by
      marking the incarnation done. `others` says that another shutdown is pending too. */
  lemma ShutKeepsRelease(inc: Incarnation, step: ShutPc, others: bool)
    requires ReleaseInv(inc, others || step == Finish)
    ensures ReleaseInv(ShutSelf(inc, step), others || ShutNext(inc, step) == Finish)
  {
  }

  /** What a step on one incarnation leaves as it was for whoever waits on it. */
  predicate SameIdentity(inc: Incarnation, inc': Incarnation) {
    && inc'.name == inc.name && inc'.conf == inc.conf
    && (inc'.phase.Unborn? ==> inc.phase.Unborn?)
  }

  lemma RunKeepsIdentity(inc: Incarnation, a: RunAct)
    requires RunEnabled(inc, a)
    ensures SameIdentity(inc, RunSelf(inc, a)) && !RunSelf(inc, a).phase.Wait? && !RunSelf(inc, a).phase.Scan?
  {
  }

  lemma ShutKeepsIdentity(inc: Incarnation, step: ShutPc)
    ensures SameIdentity(inc, ShutSelf(inc, step)) && ShutSelf(inc, step).phase == inc.phase
  {
  }

  /** A WaitInv survives any change of the incarnations that keeps their identities. */
  lemma WaitInvSurvives(s: State, s': State, inc: Incarnation)
    requires WaitInv(s, inc) && |s'.incs| >= |s.incs|
    requires forall x: Id :: x < |s.incs| ==> SameIdentity(s.incs[x], s'.incs[x])
    ensures WaitInv(s', inc)
  {
  }

  lemma WaitsKeepInv(s: State, id: Id, a: WaitAct)
    requires Inv(s) && WaitEnabled(s, id, a)
    ensures Inv(WaitStep(s, id, a))
  {
    var s' := WaitStep(s, id, a);
    assert WaitInv(s, s.incs[id]);
    assert WaitInv(s, s.incs[id].(phase := WaitPhase(s, id, a)));
    assert forall x: Id :: x < |s.incs| ==> SameIdentity(s.incs[x], s'.incs[x]);
    forall x: Id | x < |s'.incs|
      ensures WaitInv(s', s'.incs[x]) && ReleaseInv(s'.incs[x], FinishPending(s', x))
    {
      assert ReleaseInv(s.incs[x], FinishPending(s, x));
      assert FinishPending(s', x) == FinishPending(s, x);
      WaitInvSurvives(s, s', if x == id then s.incs[id].(phase := WaitPhase(s, id, a)) else s.incs[x]);
    }
  }

  lemma RunsKeepInv(s: State, id: Id, a: RunAct)
    requires Inv(s) && id < |s.incs| && RunEnabled(s.incs[id], a)
    ensures Inv(s.(incs := s.incs[id := RunSelf(s.incs[id], a)]))
  {
    hide RunSelf, RunEnabled, ReleaseInv;
    var s' := s.(incs := s.incs[id := RunSelf(s.incs[id], a)]);
    RunKeepsIdentity(s.incs[id], a);
    forall x: Id | x < |s'.incs|
      ensures WaitInv(s', s'.incs[x]) && ReleaseInv(s'.incs[x], FinishPending(s', x))
    {
      assert FinishPending(s', x) == FinishPending(s, x);
      if x == id {
        RunKeepsRelease(s.incs[id], a, FinishPending(s, id));
      } else {
        WaitInvSurvives(s, s', s.incs[x]);
      }
    }
  }

  /** Which incarnations are pending after a shutdown's step; `others` says whether a different shutdown
      is pending on the same target. */
  lemma PendingAfter(s: State, sid: Sid, x: Id) returns (others: bool)
    requires ShutEnabled(s, sid)
    ensures var u := s.shutdowns[sid];
            && (x != u.target ==> FinishPending(ShutStep(s, sid), x) == FinishPending(s, x))
            && FinishPending(s, u.target) == (others || u.step == Finish)
            && FinishPending(ShutStep(s, sid), u.target) == (others || ShutNext(s.incs[u.target], u.step) == Finish)
  {
    var s' := ShutStep(s, sid);
    var target := s.shutdowns[sid].target;
    assert forall u: Sid :: u < |s.shutdowns| && u != sid ==> s'.shutdowns[u] == s.shutdowns[u];
    others := exists u: Sid :: u < |s.shutdowns| && u != sid && s.shutdowns[u] == Shutdown(target, Finish);
    assert s'.shutdowns[sid] == Shutdown(target, ShutNext(s.incs[target], s.shutdowns[sid].step));
    if others {
      var u: Sid :| u < |s.shutdowns| && u != sid && s.shutdowns[u] == Shutdown(target, Finish);
      assert s'.shutdowns[u] == Shutdown(target, Finish);
    }
  }

  lemma ShutsKeepInv(s: State, sid: Sid)
    requires Inv(s) && ShutEnabled(s, sid)
    ensures Inv(ShutStep(s, sid))
  {
    hide ShutSelf, ShutNext, ReleaseInv;
    var s' := ShutStep(s, sid);
    var target := s.shutdowns[sid].target;
    ShutKeepsIdentity(s.incs[target], s.shutdowns[sid].step);
    forall x: Id | x < |s'.incs|
      ensures WaitInv(s', s'.incs[x]) && ReleaseInv(s'.incs[x], FinishPending(s', x))
    {
      var others := PendingAfter(s, sid, x);
      assert ReleaseInv(s.incs[x], FinishPending(s, x));
      assert WaitInv(s, s.incs[x]);
      WaitInvSurvives(s, s', s.incs[x]);
      if x == target {
        ShutKeepsRelease(s.incs[target], s.shutdowns[sid].step, others);
      }
    }
  }

  lemma LaunchKeepsInv(s: State, n: Name, conf: Config)
    requires Inv(s)
    ensures Inv(LaunchStep(s, n, conf))
  {
    var s' := LaunchStep(s, n, conf);
    forall x: Id | x < |s'.incs|
      ensures WaitInv(s', s'.incs[x]) && ReleaseInv(s'.incs[x], FinishPending(s', x))
    {
      assert FinishPending(s', x) == FinishPending(s, x);
      if x < |s.incs| {
        WaitInvSurvives(s, s', s.incs[x]);
      }
    }
  }

  lemma AddKeepsInv(s: State, id: Id)
    requires Inv(s) && Enabled(s, AddRunning(id))
    ensures Inv(Apply(s, AddRunning(id)))
  {
    var s' := Apply(s, AddRunning(id));
    forall x: Id | x < |s'.incs|
      ensures WaitInv(s', s'.incs[x]) && ReleaseInv(s'.incs[x], FinishPending(s', x))
    {
      assert FinishPending(s', x) == FinishPending(s, x);
      assert ReleaseInv(s.incs[x], FinishPending(s, x));
      if x != id {
        WaitInvSurvives(s, s', s.incs[x]);
      }
    }
  }

  lemma SpawnKeepsInv(s: State, u: Shutdown)
    requires Inv(s) && u.target < |s.incs| && u.step != Finish
    ensures Inv(s.(shutdowns := s.shutdowns + [u]))
  {
    var s' := s.(shutdowns := s.shutdowns + [u]);
    forall x: Id | x < |s.incs|
      ensures FinishPending(s', x) == FinishPending(s, x) && WaitInv(s', s'.incs[x])
    {
      if FinishPending(s, x) {
        var v: Sid :| v < |s.shutdowns| && s.shutdowns[v] == Shutdown(x, Finish);
        assert s'.shutdowns[v] == Shutdown(x, Finish);
      }
      WaitInvSurvives(s, s', s.incs[x]);
    }
  }

  lemma NextKeepsInv(s: State, l: Label, s': State)
    requires Inv(s) && Next(s, l, s')
    ensures Inv(s')
  {
    hide WaitStep, RunSelf, ShutStep, LaunchStep, ReleaseInv, WaitInv, FinishPending, WaitEnabled, RunEnabled;
    match l
    case Waits(id, a) => WaitsKeepInv(s, id, a);
    case Runs(id, a) => RunsKeepInv(s, id, a);
    case Shuts(sid) => ShutsKeepInv(s, sid);
    case NewIncarnationState(n, conf) => LaunchKeepsInv(s, n, conf);
    case AddRunning(id) => AddKeepsInv(s, id);
    case NewProcessState(_) => CanonLeavesInv(s, s');
    case ResetRestartCount(_) => CanonLeavesInv(s, s');
    case SpawnShutdown(target, restarting) => SpawnKeepsInv(s, Shutdown(target, if restarting then Mark else Prepare));
  }

  lemma CanonLeavesInv(s: State, s': State)
    requires Inv(s) && s'.incs == s.incs && s'.shutdowns == s.shutdowns
    ensures Inv(s')
  {
    forall x: Id | x < |s.incs| ensures FinishPending(s', x) == FinishPending(s, x) && WaitInv(s', s'.incs[x]) {
      WaitInvSurvives(s, s', s.incs[x]);
    }
  }

  lemma {:induction false} RunKeepsInv(path: seq<State>, labels: seq<Label>, k: nat)
    requires IsRun(path, labels) && k < |path|
    ensures Inv(path[k])
  {
    hide Next;
    if k > 0 {
      RunKeepsInv(path, labels, k - 1);
      NextKeepsInv(path[k - 1], labels[k - 1], path[k]);
    }
  }

  // ----- Progress -----

  /** Parked, and the awaited event has not happened. */
  predicate Stuck(s: State, x: Id) {
    && x < |s.incs| && Parked(s, s.incs[x])
    && !Happened(Awaited(s, s.incs[x]).0, Awaited(s, s.incs[x]).1)
  }

  function WaitsOn(s: State, x: Id): Id
    requires Stuck(s, x)
  {
    s.incs[x].phase.on
  }

  /** Neither stuck nor finished; or finished, with a shutdown about to release its waiters. */
  ghost predicate Moving(s: State, x: Id) {
    x < |s.incs| && !Stuck(s, x) && (s.incs[x].phase.Left? ==> FinishPending(s, x))
  }

  /** Stuck on an incarnation that is finished for good. */
  ghost predicate DeadEnd(s: State, x: Id) {
    Stuck(s, x) && s.incs[WaitsOn(s, x)].phase.Left? && !FinishPending(s, WaitsOn(s, x))
  }

  /** The configured dependencies are acyclic: every process ranks above what it depends on. */
  ghost predicate Ranked(s: State, rank: Name -> nat) {
    forall x: Id, dep: Name :: x < |s.incs| && dep in s.incs[x].conf.deps ==> rank(dep) < rank(s.incs[x].name)
  }

  /** A chain of stuck incarnations, each waiting on the next. */
  ghost predicate WaitChain(s: State, chain: seq<Id>) {
    forall j :: 0 <= j < |chain| - 1 ==> Stuck(s, chain[j]) && WaitsOn(s, chain[j]) == chain[j + 1]
  }

  /** Following the waits from a stuck incarnation ends, after finitely many, at one that is still moving
      - or at a dead end. */
  lemma {:induction false} ChainEnds(s: State, rank: Name -> nat, x: Id) returns (chain: seq<Id>)
    requires Inv(s) && Ranked(s, rank) && Stuck(s, x)
    ensures |chain| >= 2 && chain[0] == x && WaitChain(s, chain)
    ensures Moving(s, chain[|chain| - 1]) || DeadEnd(s, chain[|chain| - 2])
    decreases rank(s.incs[x].name)
  {
    var on := WaitsOn(s, x);
    assert WaitInv(s, s.incs[x]);
    if Stuck(s, on) {
      var rest := ChainEnds(s, rank, on);
      chain := [x] + rest;
      assert forall j :: 0 < j < |chain| ==> chain[j] == rest[j - 1];
    } else {
      chain := [x, on];
    }
  }

  /** A dead end is a wait for a start that never happened, or for the health of a process that has a
      liveness probe only; no other condition leads to one. */
  lemma DeadEndCauses(s: State, x: Id)
    requires Inv(s) && DeadEnd(s, x)
    ensures var (c, on) := Awaited(s, s.incs[x]);
            || (c == Started && !on.sig.started && !on.ctl.cancelled)
            || (c == Healthy && !on.conf.readinessProbe && on.conf.livenessProbe)
  {
    assert WaitInv(s, s.incs[x]);
    assert ReleaseInv(s.incs[WaitsOn(s, x)], FinishPending(s, WaitsOn(s, x)));
  }

  /** The conditions under which no wait can be a dead end. */
  ghost predicate SoundConditions(s: State) {
    forall x: Id, dep: Name :: x < |s.incs| && dep in s.incs[x].conf.deps ==>
      && s.incs[x].conf.deps[dep] != Started
      && (s.incs[x].conf.deps[dep] == Healthy ==>
            forall y: Id :: y < |s.incs| && s.incs[y].name == dep ==> s.incs[y].conf.readinessProbe)
  }

  /** Dependency waits make progress: with acyclic dependencies, none of them process_started and none a
      process_healthy on a process without a readiness probe, every parked incarnation whose awaited event
      has not happened transitively waits on one that is neither parked nor finished, or whose waiters a
      shutdown is just about to release. */
  lemma WaitsMakeProgress(path: seq<State>, labels: seq<Label>, k: nat, rank: Name -> nat, x: Id)
    returns (chain: seq<Id>)
    requires IsRun(path, labels) && k < |path|
    requires Ranked(path[k], rank) && SoundConditions(path[k]) && Stuck(path[k], x)
    ensures |chain| >= 2 && chain[0] == x && WaitChain(path[k], chain)
    ensures Moving(path[k], chain[|chain| - 1])
  {
    RunKeepsInv(path, labels, k);
    var s := path[k];
    chain := ChainEnds(s, rank, x);
    var last := chain[|chain| - 2];
    if DeadEnd(s, last) {
      assert WaitInv(s, s.incs[last]);
      DeadEndCauses(s, last);
    }
  }

  /** A dead end stays one, whatever else happens, until the waiter gives up because it is itself stopped
      or somebody still shuts the finished incarnation down. */
  lemma DeadEndStays(s: State, l: Label, s': State, x: Id)
    requires Inv(s) && DeadEnd(s, x) && Next(s, l, s')
    requires l != Waits(x, GiveUp)
    requires l.Shuts? ==> s.shutdowns[l.sid].target != WaitsOn(s, x)
    ensures DeadEnd(s', x) && WaitsOn(s', x) == WaitsOn(s, x)
  {
    hide RunSelf, ShutStep, RunEnabled, ReleaseInv, Inv;
    match l
    case Waits(id, a) =>
    case Runs(id, a) =>
      RunKeepsIdentity(s.incs[id], a);
      WaiterDoesNotRun(s.incs[id], a);
    case Shuts(sid) => ShutKeepsDeadEnd(s, sid, x);
    case SpawnShutdown(_, _) =>
      assert forall u: Sid :: u < |s'.shutdowns| && s'.shutdowns[u] == Shutdown(WaitsOn(s, x), Finish) ==>
        u < |s.shutdowns|;
    case _ =>
  }

  lemma WaiterDoesNotRun(inc: Incarnation, a: RunAct)
    requires RunEnabled(inc, a)
    ensures !inc.phase.Wait? && !inc.phase.Left?
  {
  }

  lemma ShutKeepsDeadEnd(s: State, sid: Sid, x: Id)
    requires Inv(s) && DeadEnd(s, x) && ShutEnabled(s, sid) && s.shutdowns[sid].target != WaitsOn(s, x)
    ensures DeadEnd(ShutStep(s, sid), x) && WaitsOn(ShutStep(s, sid), x) == WaitsOn(s, x)
  {
    hide ShutSelf, ShutNext;
    var others := PendingAfter(s, sid, WaitsOn(s, x));
    ShutKeepsIdentity(s.incs[s.shutdowns[sid].target], s.shutdowns[sid].step);
  }

  // ----- A dead end, reached -----

  /** A process without dependencies fails validation: it is over without ever having started. */
  lemma FailsValidation(b: Name, conf: Config) returns (path: seq<State>, labels: seq<Label>)
    requires conf.deps == map[]
    ensures IsRun(path, labels)
    ensures var s := path[|labels|];
            && |s.incs| == 1 && s.incs[0].name == b && s.incs[0].conf == conf && s.incs[0].phase == Left
            && !s.incs[0].sig.started && !s.incs[0].ctl.cancelled && s.shutdowns == []
  {
    path, labels := ReachesEnter(b, conf);
    path, labels := Extend(path, labels, Runs(0, Begin(false)));
    path, labels := Extend(path, labels, Runs(0, CancelContexts));
    path, labels := Extend(path, labels, Runs(0, MarkDone));
  }

  /** A process with a liveness probe only, and without dependencies, is running. */
  lemma RunsWithoutReadiness(b: Name, conf: Config) returns (path: seq<State>, labels: seq<Label>)
    requires conf.deps == map[] && conf.policy == No && !conf.readinessProbe
    ensures IsRun(path, labels)
    ensures var s := path[|labels|];
            && |s.incs| == 1 && s.incs[0].name == b && s.incs[0].conf == conf && s.incs[0].phase == Alive
            && !s.incs[0].sig.readyClosed && !s.incs[0].ctl.cancelled && s.shutdowns == []
  {
    path, labels := ReachesEnter(b, conf);
    path, labels := Extend(path, labels, Runs(0, Begin(true)));
    path, labels := Extend(path, labels, Runs(0, StartCommand(true)));
  }

  /** Another process comes to wait for it to become healthy. */
  lemma WaitsForHealth(path0: seq<State>, labels0: seq<Label>, a: Name, waiter: Config)
    returns (path: seq<State>, labels: seq<Label>)
    requires IsRun(path0, labels0) && |path0[|labels0|].incs| == 1 && path0[|labels0|].incs[0].phase == Alive
    requires waiter.deps == map[path0[|labels0|].incs[0].name := Healthy] && path0[|labels0|].incs[0].conf.livenessProbe
    ensures IsRun(path, labels)
    ensures var s, s' := path0[|labels0|], path[|labels|];
            && |s'.incs| == 2 && s'.incs[0] == s.incs[0] && s'.shutdowns == s.shutdowns
            && s'.incs[1].name == a && s'.incs[1].conf == waiter
            && s'.incs[1].phase == Wait(s.incs[0].name, 0, {})
  {
    var b := path0[|labels0|].incs[0].name;
    path, labels := Extend(path0, labels0, NewIncarnationState(a, waiter));
    path, labels := Extend(path, labels, AddRunning(1));
    assert b in path[|labels|].incs[1].phase.rem;
    path, labels := Extend(path, labels, Waits(1, Look(b, Some(0))));
  }

  /** A process that waits for process_healthy on one with a liveness probe only is at a dead end as soon as that one
      has finished, even with success. */
  lemma HealthyOnLivenessProbeStalls(a: Name, b: Name) returns (path: seq<State>, labels: seq<Label>)
    requires a != b
    ensures IsRun(path, labels)
    ensures DeadEnd(path[|labels|], 1) && path[|labels|].shutdowns == []
    ensures Ranked(path[|labels|], n => if n == a then 1 else 0)
  {
    var waiter := Config(map[b := Healthy], No, 0, {}, false, false);
    path, labels := RunsWithoutReadiness(b, Config(map[], No, 0, {}, false, true));
    path, labels := WaitsForHealth(path, labels, a, waiter);
    path, labels := EndsByItself(path, labels, 0, 0);
    hide Next, IsRun;
  }

  /** A process that waits for process_started on one that failed its validation is at a dead end, with
      acyclic dependencies and nothing under way that could release it. */
  lemma StartedOnFailedValidationStalls(a: Name, b: Name) returns (path: seq<State>, labels: seq<Label>)
    requires a != b
    ensures IsRun(path, labels)
    ensures DeadEnd(path[|labels|], 1) && path[|labels|].shutdowns == []
    ensures Ranked(path[|labels|], n => if n == a then 1 else 0)
  {
    var waiter := Config(map[b := Started], No, 0, {}, false, false);
    path, labels := FailsValidation(b, Config(map[], No, 0, {}, false, false));
    path, labels := Extend(path, labels, NewIncarnationState(a, waiter));
    path, labels := Extend(path, labels, AddRunning(1));
    assert b in path[|labels|].incs[1].phase.rem;
    path, labels := Extend(path, labels, Waits(1, Look(b, Some(0))));
  }
}

/** The ordered shutdown of a project: every process waits for the processes that depend on it.

    The runner snapshots the running processes twice, each time under runProcMutex: once to decide what
    to shut down, and again to find out who depends on whom. The first lists the running processes met on a
    walk over the project's configuration; it misses those the configuration lacks and those the walk gives
    up because something they depend on is undefined, and the walk's error is only logged. Between and after
    the two snapshots other goroutines still launch processes, and processes end by themselves. Then one
    goroutine per process of the first snapshot waits for the dependents recorded in the second, shuts its
    process down and waits for it to complete. */
module OrderedShutdown {
  import opened Common

  type Id = nat

  /** `begun` says that shutDown was called on the incarnation; `done` that it has completed. */
  datatype Incarnation = Incarnation(name: Name, deps: set<Name>, begun: bool, done: bool)

  /** The goroutine shutting one incarnation down; `waits` are the dependents not yet seen completed. */
  datatype Worker = Waiting(waits: set<Id>) | Completing | Finished

  datatype Stage =
    | Idle
    | Ordered(order: set<Id>)                       // ShutDownProject has listed what to shut down
    | Working(order: set<Id>, dependents: map<Id, set<Id>>, workers: map<Id, Worker>)
    | Cancelled                                     // every worker has finished: cancelAppFn

  datatype State = State(incs: seq<Incarnation>, running: map<Name, Id>, stage: Stage)

  datatype Label =
    | Launch(name: Name, deps: set<Name>)
    | End(id: Id)
    | Leave(id: Id)
    | TakeOrder(order: set<Id>)
    | TakeDependents
    | SeeDone(id: Id, dependent: Id)
    | BeginShutDown(id: Id, failed: bool)
    | SeeCompleted(id: Id)
    | AllFinished

  /** Incarnation x depends directly on a process called n. */
  predicate DependsOn(s: State, x: Id, n: Name) {
    x < |s.incs| && n in s.incs[x].deps
  }

  /** runningProcessesReverseDependencies for the name of x: the registered incarnations depending on it,
      provided a process of that name is itself registered. */
  ghost function RunningDependents(s: State, x: Id): set<Id>
    requires x < |s.incs|
  {
    if s.incs[x].name in s.running
    then set y | y in s.running.Values && DependsOn(s, y, s.incs[x].name)
    else {}
  }

  ghost predicate Enabled(s: State, l: Label) {
    match l
    case Launch(_, _) => true
    case End(id) => id < |s.incs|
    case Leave(id) => id < |s.incs| && s.incs[id].done
    case TakeOrder(order) => s.stage.Idle? && order <= s.running.Values && forall id :: id in order ==> id < |s.incs|
    case TakeDependents => s.stage.Ordered? && forall id :: id in s.stage.order ==> id < |s.incs|
    case SeeDone(id, y) =>
      && s.stage.Working? && id in s.stage.workers && s.stage.workers[id].Waiting?
      && y in s.stage.workers[id].waits && y < |s.incs| && s.incs[y].done
    case BeginShutDown(id, _) =>
      && s.stage.Working? && id in s.stage.workers && s.stage.workers[id] == Waiting({}) && id < |s.incs|
    case SeeCompleted(id) =>
      && s.stage.Working? && id in s.stage.workers && s.stage.workers[id].Completing?
      && id < |s.incs| && s.incs[id].done
    case AllFinished => s.stage.Working? && forall id :: id in s.stage.workers ==> s.stage.workers[id].Finished?
  }

  ghost function Apply(s: State, l: Label): State
    requires Enabled(s, l)
  {
    match l
    case Launch(n, deps) =>
      s.(incs := s.incs + [Incarnation(n, deps, false, false)], running := s.running[n := |s.incs|])
    case End(id) => s.(incs := s.incs[id := s.incs[id].(done := true)])
    case Leave(id) =>
      var n := s.incs[id].name;
      if n in s.running && s.running[n] == id then s.(running := s.running - {n}) else s
    case TakeOrder(order) => s.(stage := Ordered(order))
    case TakeDependents =>
      var dependents := map id | id in s.stage.order :: RunningDependents(s, id);
      s.(stage := Working(s.stage.order, dependents, map id | id in s.stage.order :: Waiting(dependents[id])))
    case SeeDone(id, y) =>
      var w := Waiting(s.stage.workers[id].waits - {y});
      s.(stage := s.stage.(workers := s.stage.workers[id := w]))
    case BeginShutDown(id, failed) =>
      s.(incs := s.incs[id := s.incs[id].(begun := true)],
         stage := s.stage.(workers := s.stage.workers[id := if failed then Finished else Completing]))
    case SeeCompleted(id) => s.(stage := s.stage.(workers := s.stage.workers[id := Finished]))
    case AllFinished => s.(stage := Cancelled)
  }

  ghost predicate Init(s: State) {
    s == State([], map[], Idle)
  }

  ghost predicate Next(s: State, l: Label, s': State) {
    Enabled(s, l) && s' == Apply(s, l)
  }

  ghost predicate IsRun(path: seq<State>, labels: seq<Label>) {
    && |path| == |labels| + 1
    && Init(path[0])
    && forall k :: 0 <= k < |labels| ==> Next(path[k], labels[k], path[k + 1])
  }

  // ----- What holds in every state of a run -----

  ghost predicate RefsInv(s: State) {
    && (forall n :: n in s.running ==> s.running[n] < |s.incs| && s.incs[s.running[n]].name == n)
    && (s.stage.Ordered? ==> forall x :: x in s.stage.order ==> x < |s.incs|)
  }

  /** The worker for x still has to see exactly the recorded dependents it has not seen completed. */
  ghost predicate WorkerInv(incs: seq<Incarnation>, x: Id, dependents: set<Id>, w: Worker) {
    && x < |incs|
    && (forall y :: y in dependents ==> y < |incs| && incs[x].name in incs[y].deps)
    && match w
       case Waiting(waits) => waits <= dependents && forall y :: y in dependents - waits ==> y < |incs| && incs[y].done
       case _ => incs[x].begun && forall y :: y in dependents ==> y < |incs| && incs[y].done
  }

  ghost predicate WorkersInv(s: State) {
    s.stage.Working? ==>
      && s.stage.dependents.Keys == s.stage.order && s.stage.workers.Keys == s.stage.order
      && (forall x :: x in s.stage.order ==> WorkerInv(s.incs, x, s.stage.dependents[x], s.stage.workers[x]))
  }

  ghost predicate Inv(s: State) {
    RefsInv(s) && WorkersInv(s)
  }

  /** Incarnations keep who they are; shutdowns and completions are never undone. */
  ghost predicate Grown(incs: seq<Incarnation>, incs': seq<Incarnation>) {
    && |incs| <= |incs'|
    && forall x: Id :: x < |incs| ==>
         && incs'[x].name == incs[x].name && incs'[x].deps == incs[x].deps
         && (incs[x].begun ==> incs'[x].begun) && (incs[x].done ==> incs'[x].done)
  }

  lemma WorkerInvSurvives(incs: seq<Incarnation>, incs': seq<Incarnation>, x: Id, dependents: set<Id>, w: Worker)
    requires WorkerInv(incs, x, dependents, w) && Grown(incs, incs')
    ensures WorkerInv(incs', x, dependents, w)
  {
  }

  lemma GrownKeepsInv(s: State, s': State)
    requires Inv(s) && RefsInv(s') && Grown(s.incs, s'.incs) && s'.stage == s.stage
    ensures Inv(s')
  {
    hide WorkerInv, Grown;
    if s.stage.Working? {
      forall x | x in s.stage.order ensures WorkerInv(s'.incs, x, s.stage.dependents[x], s.stage.workers[x]) {
        WorkerInvSurvives(s.incs, s'.incs, x, s.stage.dependents[x], s.stage.workers[x]);
      }
    }
  }

  /** One worker moves; the others' invariants only have to survive. */
  lemma WorkerStepKeepsInv(s: State, s': State, id: Id, w: Worker)
    requires Inv(s) && RefsInv(s') && Grown(s.incs, s'.incs) && s.stage.Working? && id in s.stage.order
    requires s'.stage == s.stage.(workers := s.stage.workers[id := w])
    requires WorkerInv(s'.incs, id, s.stage.dependents[id], w)
    ensures Inv(s')
  {
    hide Grown, WorkerInv;
    forall x | x in s.stage.order ensures WorkerInv(s'.incs, x, s'.stage.dependents[x], s'.stage.workers[x]) {
      if x != id {
        WorkerInvSurvives(s.incs, s'.incs, x, s.stage.dependents[x], s.stage.workers[x]);
      }
    }
  }

  lemma DependentsKeepInv(s: State)
    requires Inv(s) && Enabled(s, TakeDependents)
    ensures Inv(Apply(s, TakeDependents))
  {
    var s' := Apply(s, TakeDependents);
    forall x | x in s'.stage.order ensures WorkerInv(s'.incs, x, s'.stage.dependents[x], s'.stage.workers[x]) {
      assert s'.stage.dependents[x] == RunningDependents(s, x);
      assert s'.stage.dependents[x] - s'.stage.workers[x].waits == {};
    }
  }

  lemma WorkersKeepInv(s: State, l: Label, s': State)
    requires Inv(s) && Next(s, l, s') && (l.SeeDone? || l.BeginShutDown? || l.SeeCompleted?)
    ensures Inv(s')
  {
    assert WorkerInv(s.incs, l.id, s.stage.dependents[l.id], s.stage.workers[l.id]);
    WorkerStepKeepsInv(s, s', l.id, s'.stage.workers[l.id]);
  }

  lemma NextKeepsInv(s: State, l: Label, s': State)
    requires Inv(s) && Next(s, l, s')
    ensures Inv(s')
  {
    hide WorkerInv, RunningDependents;
    if l.TakeDependents? {
      DependentsKeepInv(s);
    } else if l.SeeDone? || l.BeginShutDown? || l.SeeCompleted? {
      WorkersKeepInv(s, l, s');
    } else if !l.TakeOrder? && !l.AllFinished? {
      GrownKeepsInv(s, s');
    }
  }

  lemma {:induction false} RunKeepsInv(path: seq<State>, labels: seq<Label>, k: nat)
    requires IsRun(path, labels) && k < |path|
    ensures Inv(path[k])
  {
    hide Next;
    if k > 0 {
      RunKeepsInv(path, labels, k - 1);
      NextKeepsInv(path[k - 1], labels[k - 1], path[k]);
    }
  }

  // ----- Who is registered -----

  /** Step i of the run took x out of the registry, before step k. */
  ghost predicate LeftBy(labels: seq<Label>, k: nat, x: Id) {
    exists i: nat :: i < k && i < |labels| && labels[i] == Leave(x)
  }

  ghost predicate IsNewest(incs: seq<Incarnation>, x: Id) {
    x < |incs| && forall y: Id :: x < y < |incs| ==> incs[y].name != incs[x].name
  }

  ghost predicate RegisteredExactly(s: State, labels: seq<Label>, k: nat) {
    forall x: Id :: x < |s.incs| ==>
      (s.incs[x].name in s.running && s.running[s.incs[x].name] == x
       <==> IsNewest(s.incs, x) && !LeftBy(labels, k, x))
  }

  lemma LeftByMore(labels: seq<Label>, k: nat, x: Id)
    requires k < |labels|
    ensures LeftBy(labels, k + 1, x) <==> LeftBy(labels, k, x) || labels[k] == Leave(x)
  {
  }

  lemma OnlyThereLeaves(path: seq<State>, labels: seq<Label>, k: nat, x: Id)
    requires IsRun(path, labels) && k < |path| && LeftBy(labels, k, x)
    ensures x < |path[k].incs|
  {
    var i: nat :| i < k && i < |labels| && labels[i] == Leave(x);
    assert Next(path[i], labels[i], path[i + 1]);
    GrowsFrom(path, labels, i, k);
  }

  lemma NewestAfterLaunch(incs: seq<Incarnation>, inc: Incarnation, x: Id)
    requires x < |incs|
    ensures IsNewest(incs + [inc], x) <==> IsNewest(incs, x) && incs[x].name != inc.name
  {
    var longer := incs + [inc];
    assert longer[|incs|] == inc && forall y: Id :: y < |incs| ==> longer[y] == incs[y];
    if IsNewest(longer, x) {
      assert forall y: Id :: x < y < |incs| ==> longer[y].name != longer[x].name;
    }
  }

  lemma NewestBySame(incs: seq<Incarnation>, incs': seq<Incarnation>, x: Id)
    requires |incs'| == |incs| && forall y: Id :: y < |incs| ==> incs'[y].name == incs[y].name
    ensures IsNewest(incs', x) <==> IsNewest(incs, x)
  {
    if x < |incs| {
      assert incs'[x].name == incs[x].name;
      if IsNewest(incs', x) {
        assert forall y: Id :: x < y < |incs| ==> incs'[y].name != incs[x].name;
      }
    }
  }

  lemma LaunchRegisters(s: State, labels: seq<Label>, k: nat, s': State)
    requires k < |labels| && labels[k].Launch? && Next(s, labels[k], s') && RegisteredExactly(s, labels, k)
    requires !LeftBy(labels, k, |s.incs|) && RefsInv(s)
    ensures RegisteredExactly(s', labels, k + 1)
  {
    var inc := s'.incs[|s.incs|];
    assert s'.incs == s.incs + [inc] && inc.name == labels[k].name && s'.running == s.running[inc.name := |s.incs|];
    hide Next, IsNewest, LeftBy;
    forall x: Id | x < |s'.incs|
      ensures s'.incs[x].name in s'.running && s'.running[s'.incs[x].name] == x
              <==> IsNewest(s'.incs, x) && !LeftBy(labels, k + 1, x)
    {
      LeftByMore(labels, k, x);
      if x < |s.incs| { NewestAfterLaunch(s.incs, inc, x); }
      NewestIsLast(s.incs, inc);
    }
  }

  lemma NewestIsLast(incs: seq<Incarnation>, inc: Incarnation)
    ensures IsNewest(incs + [inc], |incs|)
  {
  }

  lemma OthersKeepNames(s: State, l: Label, s': State)
    requires !l.Launch? && Next(s, l, s')
    ensures |s'.incs| == |s.incs| && forall y: Id :: y < |s.incs| ==> s'.incs[y].name == s.incs[y].name
    ensures if l.Leave? && l.id < |s.incs| && s.incs[l.id].name in s.running && s.running[s.incs[l.id].name] == l.id
            then s'.running == s.running - {s.incs[l.id].name} else s'.running == s.running
    ensures l.Leave? ==> l.id < |s.incs|
  {
  }

  lemma OthersKeepRegistry(s: State, labels: seq<Label>, k: nat, s': State)
    requires k < |labels| && !labels[k].Launch? && Next(s, labels[k], s') && RegisteredExactly(s, labels, k)
    ensures RegisteredExactly(s', labels, k + 1)
  {
    OthersKeepNames(s, labels[k], s');
    hide Next, IsNewest, LeftBy;
    forall x: Id | x < |s'.incs|
      ensures s'.incs[x].name in s'.running && s'.running[s'.incs[x].name] == x
              <==> IsNewest(s'.incs, x) && !LeftBy(labels, k + 1, x)
    {
      LeftByMore(labels, k, x);
      NewestBySame(s.incs, s'.incs, x);
      assert labels[k] == Leave(x) <==> labels[k].Leave? && labels[k].id == x;
      assert s'.incs[x].name == s.incs[x].name;
    }
  }

  /** In every run exactly the newest incarnation of a name is registered, until it leaves. */
  lemma {:induction false} RunRegisters(path: seq<State>, labels: seq<Label>, k: nat)
    requires IsRun(path, labels) && k < |path|
    ensures RegisteredExactly(path[k], labels, k)
  {
    if k > 0 {
      RunRegisters(path, labels, k - 1);
      assert Next(path[k - 1], labels[k - 1], path[k]);
      RunKeepsInv(path, labels, k - 1);
      if labels[k - 1].Launch? {
        if LeftBy(labels, k - 1, |path[k - 1].incs|) {
          OnlyThereLeaves(path, labels, k - 1, |path[k - 1].incs|);
        }
        hide IsRun, Next, RegisteredExactly, LeftBy;
        LaunchRegisters(path[k - 1], labels, k - 1, path[k]);
      } else {
        hide IsRun, Next, RegisteredExactly, LeftBy;
        OthersKeepRegistry(path[k - 1], labels, k - 1, path[k]);
      }
    }
  }

  // ----- Order -----

  /** Step k of the run calls shutDown on x. */
  ghost predicate BeginsAt(path: seq<State>, labels: seq<Label>, k: nat, x: Id) {
    k < |labels| && k < |path| && labels[k].BeginShutDown? && labels[k].id == x
  }

  ghost predicate DependentsTakenAt(path: seq<State>, labels: seq<Label>, j: nat) {
    j < |labels| && j < |path| && labels[j] == TakeDependents
  }

  lemma {:induction false} DependentsKept(path: seq<State>, labels: seq<Label>, j: nat, k: nat)
    requires IsRun(path, labels) && DependentsTakenAt(path, labels, j) && j < k < |path| && path[k].stage.Working?
    ensures path[k].stage.order == path[j + 1].stage.order && path[j + 1].stage.Working?
    ensures path[k].stage.dependents == path[j + 1].stage.dependents
    ensures Grown(path[j].incs, path[k].incs)
    decreases k
  {
    assert Next(path[k - 1], labels[k - 1], path[k]);
    assert Next(path[j], labels[j], path[j + 1]);
    if j + 1 < k {
      WorkingBefore(path, labels, j, k - 1);
      StepKeepsDependents(path[k - 1], labels[k - 1], path[k]);
      hide IsRun, Next;
      DependentsKept(path, labels, j, k - 1);
    }
  }

  lemma StepKeepsDependents(s: State, l: Label, s': State)
    requires Next(s, l, s') && (s.stage.Working? || s.stage.Cancelled?) && s'.stage.Working?
    ensures s.stage.Working? && s'.stage.order == s.stage.order && s'.stage.dependents == s.stage.dependents
    ensures Grown(s.incs, s'.incs)
  {
  }

  /** Once the dependents are taken the project is being shut down or cancelled, never idle again. */
  lemma {:induction false} WorkingBefore(path: seq<State>, labels: seq<Label>, j: nat, k: nat)
    requires IsRun(path, labels) && DependentsTakenAt(path, labels, j) && j < k < |path|
    ensures path[k].stage.Working? || path[k].stage.Cancelled?
    decreases k
  {
    assert Next(path[k - 1], labels[k - 1], path[k]);
    if j + 1 < k {
      WorkingBefore(path, labels, j, k - 1);
    }
  }

  /** A process's shutDown begins only after every process that was running, and depends directly on it,
      when the dependents were recorded has completed. */
  lemma DependentsCompleteFirst(path: seq<State>, labels: seq<Label>, j: nat, k: nat, x: Id, y: Id)
    requires IsRun(path, labels) && DependentsTakenAt(path, labels, j) && j < k && BeginsAt(path, labels, k, x)
    requires x < |path[j].incs| && y in path[j].running.Values && DependsOn(path[j], y, path[j].incs[x].name)
    requires path[j].incs[x].name in path[j].running
    ensures y < |path[k].incs| && path[k].incs[y].done
  {
    assert Next(path[j], labels[j], path[j + 1]);
    assert Next(path[k], labels[k], path[k + 1]);
    RunKeepsInv(path, labels, k);
    DependentsKept(path, labels, j, k);
    var s := path[k];
    assert WorkerInv(s.incs, x, s.stage.dependents[x], s.stage.workers[x]);
    assert y in RunningDependents(path[j], x);
    assert y in s.stage.dependents[x];
  }

  // ----- What has happened when the application is cancelled -----

  /** shutDown was called on x before step k; and it failed. */
  ghost predicate BegunBy(labels: seq<Label>, k: nat, x: Id) {
    exists b: nat ::
      b < k && b < |labels| && (labels[b] == BeginShutDown(x, false) || labels[b] == BeginShutDown(x, true))
  }

  ghost predicate FailedBy(labels: seq<Label>, k: nat, x: Id) {
    exists b: nat :: b < k && b < |labels| && labels[b] == BeginShutDown(x, true)
  }

  /** Shut down as far as it goes: shutDown was called, and the process has completed or the call failed. */
  ghost predicate AccountedFor(incs: seq<Incarnation>, labels: seq<Label>, k: nat, x: Id) {
    BegunBy(labels, k, x) && x < |incs| && (incs[x].done || FailedBy(labels, k, x))
  }

  ghost predicate WorkersAccounted(s: State, labels: seq<Label>, k: nat) {
    s.stage.Working? ==> forall x :: x in s.stage.workers ==>
      && (s.stage.workers[x].Completing? ==> BegunBy(labels, k, x))
      && (s.stage.workers[x].Finished? ==> AccountedFor(s.incs, labels, k, x))
  }

  lemma AccountedLater(incs: seq<Incarnation>, incs': seq<Incarnation>, labels: seq<Label>, k: nat, k': nat, x: Id)
    requires k <= k' && Grown(incs, incs')
    ensures BegunBy(labels, k, x) ==> BegunBy(labels, k', x)
    ensures AccountedFor(incs, labels, k, x) ==> AccountedFor(incs', labels, k', x)
  {
  }

  lemma StepGrows(s: State, l: Label, s': State)
    requires Next(s, l, s')
    ensures Grown(s.incs, s'.incs)
  {
  }

  lemma {:induction false} RunAccounts(path: seq<State>, labels: seq<Label>, k: nat)
    requires IsRun(path, labels) && k < |path|
    ensures WorkersAccounted(path[k], labels, k)
  {
    if k > 0 && path[k].stage.Working? {
      assert Next(path[k - 1], labels[k - 1], path[k]);
      RunAccounts(path, labels, k - 1);
      StepAccounts(path[k - 1], labels, k - 1, path[k]);
    }
  }

  lemma StepAccounts(s: State, labels: seq<Label>, k: nat, s': State)
    requires k < |labels| && Next(s, labels[k], s') && WorkersAccounted(s, labels, k)
    ensures WorkersAccounted(s', labels, k + 1)
  {
    StepGrows(s, labels[k], s');
    hide Grown, BegunBy, FailedBy, AccountedFor, RunningDependents;
    if s'.stage.Working? {
      forall x | x in s'.stage.workers
        ensures s'.stage.workers[x].Completing? ==> BegunBy(labels, k + 1, x)
        ensures s'.stage.workers[x].Finished? ==> AccountedFor(s'.incs, labels, k + 1, x)
      {
        AccountedLater(s.incs, s'.incs, labels, k, k + 1, x);
        if labels[k].BeginShutDown? && labels[k].id == x {
          BeginsNow(s', labels, k, x);
        } else if labels[k].SeeCompleted? && labels[k].id == x {
          CompletesNow(s', labels, k + 1, x);
        }
      }
    }
  }

  lemma BeginsNow(s: State, labels: seq<Label>, k: nat, x: Id)
    requires k < |labels| && labels[k].BeginShutDown? && labels[k].id == x && x < |s.incs|
    ensures BegunBy(labels, k + 1, x) && (labels[k].failed ==> AccountedFor(s.incs, labels, k + 1, x))
  {
    assert labels[k] == BeginShutDown(x, labels[k].failed);
  }

  lemma CompletesNow(s: State, labels: seq<Label>, k: nat, x: Id)
    requires BegunBy(labels, k, x) && x < |s.incs| && s.incs[x].done
    ensures AccountedFor(s.incs, labels, k, x)
  {
  }

  /** The order of the stages: a cancelled project was being worked on, after its dependents had been recorded, after
      its processes had been listed. */
  lemma {:induction false} CancelledSince(path: seq<State>, labels: seq<Label>, k: nat) returns (m: nat)
    requires IsRun(path, labels) && k < |path| && path[k].stage.Cancelled?
    ensures m < k && labels[m] == AllFinished && path[m].stage.Working?
  {
    assert k > 0 && Next(path[k - 1], labels[k - 1], path[k]);
    if path[k - 1].stage.Cancelled? {
      m := CancelledSince(path, labels, k - 1);
    } else {
      m := k - 1;
    }
  }

  lemma {:induction false} WorkingSince(path: seq<State>, labels: seq<Label>, k: nat) returns (j: nat)
    requires IsRun(path, labels) && k < |path| && path[k].stage.Working?
    ensures j < k && DependentsTakenAt(path, labels, j) && path[j].stage == Ordered(path[k].stage.order)
  {
    assert k > 0 && Next(path[k - 1], labels[k - 1], path[k]);
    if path[k - 1].stage.Working? {
      StepKeepsDependents(path[k - 1], labels[k - 1], path[k]);
      j := WorkingSince(path, labels, k - 1);
    } else {
      j := k - 1;
    }
  }

  lemma {:induction false} ListedSince(path: seq<State>, labels: seq<Label>, k: nat) returns (i: nat)
    requires IsRun(path, labels) && k < |path| && path[k].stage.Ordered?
    ensures i < k && labels[i] == TakeOrder(path[k].stage.order)
  {
    assert k > 0 && Next(path[k - 1], labels[k - 1], path[k]);
    if path[k - 1].stage.Ordered? {
      i := ListedSince(path, labels, k - 1);
    } else {
      i := k - 1;
    }
  }

  lemma {:induction false} GrowsFrom(path: seq<State>, labels: seq<Label>, j: nat, k: nat)
    requires IsRun(path, labels) && j <= k < |path|
    ensures Grown(path[j].incs, path[k].incs)
    decreases k
  {
    if j < k {
      GrowsFrom(path, labels, j, k - 1);
      assert Next(path[k - 1], labels[k - 1], path[k]);
      StepGrows(path[k - 1], labels[k - 1], path[k]);
    }
  }

  /** The application is cancelled only when all is done: the processes were listed at some step i and the dependents
      recorded at some step j; by now every process listed has been shut down, and has completed unless that failed; and
      every dependent recorded for it has completed. */
  lemma CancelledWhenDone(path: seq<State>, labels: seq<Label>, k: nat) returns (i: nat, j: nat, order: set<Id>)
    requires IsRun(path, labels) && k < |path| && path[k].stage.Cancelled?
    ensures i < j < k && labels[i] == TakeOrder(order) && DependentsTakenAt(path, labels, j)
    ensures forall x :: x in order ==> AccountedFor(path[k].incs, labels, k, x)
    ensures DependentsDone(path[j], order, path[k].incs)
  {
    var m := CancelledSince(path, labels, k);
    j := WorkingSince(path, labels, m);
    i := ListedSince(path, labels, j);
    order := path[m].stage.order;
    RunKeepsInv(path, labels, m);
    AllFinishedAt(path, labels, m);
    GrowsFrom(path, labels, m, k);
    AllRecordedDone(path, labels, j, m);
    DoneStays(path[j], order, path[m].incs, path[k].incs);
    hide IsRun, Inv, WorkersInv, AccountedFor, Grown, DependentsDone;
    forall x | x in order ensures AccountedFor(path[k].incs, labels, k, x) {
      AccountedLater(path[m].incs, path[k].incs, labels, m, k, x);
    }
  }

  /** Whoever was registered in state s and depends on one of these has completed. */
  ghost predicate DependentsDone(s: State, order: set<Id>, incs: seq<Incarnation>) {
    forall x: Id, y: Id :: x in order && DependentOf(s, x, y) ==> y < |incs| && incs[y].done
  }

  ghost predicate DependentOf(s: State, x: Id, y: Id) {
    x < |s.incs| && y in RunningDependents(s, x)
  }

  lemma AllRecordedDone(path: seq<State>, labels: seq<Label>, j: nat, m: nat)
    requires IsRun(path, labels) && DependentsTakenAt(path, labels, j) && j < m < |path| && path[m].stage.Working?
    requires WorkersInv(path[m])
    requires forall x :: x in path[m].stage.order ==> path[m].stage.workers[x].Finished?
    ensures DependentsDone(path[j], path[m].stage.order, path[m].incs)
  {
    hide IsRun;
    forall x: Id, y: Id | x in path[m].stage.order && DependentOf(path[j], x, y)
      ensures y < |path[m].incs| && path[m].incs[y].done
    {
      RecordedDone(path, labels, j, m, x, y);
    }
  }

  lemma DoneStays(s: State, order: set<Id>, incs: seq<Incarnation>, incs': seq<Incarnation>)
    requires Grown(incs, incs') && DependentsDone(s, order, incs)
    ensures DependentsDone(s, order, incs')
  {
  }

  lemma AllFinishedAt(path: seq<State>, labels: seq<Label>, m: nat)
    requires IsRun(path, labels) && m < |labels| && labels[m] == AllFinished && Inv(path[m])
    ensures path[m].stage.Working? && WorkersInv(path[m]) && path[m].stage.workers.Keys == path[m].stage.order
    ensures forall x :: x in path[m].stage.order ==> path[m].stage.workers[x].Finished?
    ensures forall x :: x in path[m].stage.order ==> AccountedFor(path[m].incs, labels, m, x)
  {
    assert Next(path[m], labels[m], path[m + 1]);
    RunAccounts(path, labels, m);
    hide AccountedFor, BegunBy;
  }

  lemma RecordedDone(path: seq<State>, labels: seq<Label>, j: nat, m: nat, x: Id, y: Id)
    requires IsRun(path, labels) && DependentsTakenAt(path, labels, j) && j < m < |path| && path[m].stage.Working?
    requires x in path[m].stage.order && x < |path[j].incs| && y in RunningDependents(path[j], x)
    requires WorkersInv(path[m]) && !path[m].stage.workers[x].Waiting?
    ensures y < |path[m].incs| && path[m].incs[y].done
  {
    assert Next(path[j], labels[j], path[j + 1]);
    DependentsKept(path, labels, j, m);
    assert y in path[m].stage.dependents[x];
    assert WorkerInv(path[m].incs, x, path[m].stage.dependents[x], path[m].stage.workers[x]);
  }

  // ----- Progress -----

  /** The configured dependencies are acyclic: every process ranks above what it depends on. */
  ghost predicate Ranked(s: State, rank: Name -> nat) {
    forall x: Id, n: Name :: x < |s.incs| && n in s.incs[x].deps ==> rank(n) < rank(s.incs[x].name)
  }

  /** x waits for a dependent that has not completed and that nobody is shutting down. */
  ghost predicate StalledBy(s: State, x: Id, y: Id) {
    && s.stage.Working? && x in s.stage.order && x in s.stage.workers && s.stage.workers[x].Waiting?
    && y in s.stage.workers[x].waits && y < |s.incs| && !s.incs[y].done && y !in s.stage.workers
  }

  /** x keeps the shutdown going: its worker can take a step at once, or it has been shut down and has
      only to end. */
  ghost predicate Advancing(s: State, x: Id) {
    && s.stage.Working? && x in s.stage.workers && x < |s.incs|
    && match s.stage.workers[x]
       case Waiting(waits) => waits == {} || exists y :: y in waits && y < |s.incs| && s.incs[y].done
       case Completing => true
       case Finished => s.incs[x].begun && !s.incs[x].done
  }

  /** Following the dependents waited for leads to a worker that keeps the shutdown going, or to one that
      waits for a dependent nobody shuts down. */
  lemma {:induction false} FollowDependents(s: State, rank: Name -> nat, top: nat, x: Id) returns (z: Id, y: Id)
    requires Inv(s) && Ranked(s, rank) && s.stage.Working?
    requires x in s.stage.order && !(s.stage.workers[x].Finished? && s.incs[x].done)
    requires forall i: Id :: i < |s.incs| ==> rank(s.incs[i].name) <= top
    ensures Advancing(s, z) || StalledBy(s, z, y)
    decreases top - rank(s.incs[x].name)
  {
    assert WorkerInv(s.incs, x, s.stage.dependents[x], s.stage.workers[x]);
    if Advancing(s, x) {
      z, y := x, x;
    } else {
      var next :| next in s.stage.workers[x].waits && !s.incs[next].done;
      if next in s.stage.workers {
        assert rank(s.incs[x].name) < rank(s.incs[next].name);
        z, y := FollowDependents(s, rank, top, next);
      } else {
        z, y := x, next;
      }
    }
  }

  lemma {:induction false} RankBound(incs: seq<Incarnation>, rank: Name -> nat) returns (top: nat)
    ensures forall i: Id :: i < |incs| ==> rank(incs[i].name) <= top
  {
    if incs == [] {
      top := 0;
    } else {
      var rest := RankBound(incs[1..], rank);
      top := if rank(incs[0].name) > rest then rank(incs[0].name) else rest;
      assert forall i: Id :: 0 < i < |incs| ==> incs[i] == incs[1..][i - 1];
    }
  }

  /** An ordered shutdown comes to a halt only on a dependent nobody shuts down: with acyclic dependencies,
      every state with a process still to be shut down or to end has a worker that can take a step at once, or
      a process that has been shut down and has only to end, or a worker stalled by such a dependent. */
  lemma AdvancesOrStalls(path: seq<State>, labels: seq<Label>, k: nat, rank: Name -> nat, x: Id)
    returns (z: Id, y: Id)
    requires IsRun(path, labels) && k < |path| && Ranked(path[k], rank) && path[k].stage.Working?
    requires x in path[k].stage.order && x in path[k].stage.workers && x < |path[k].incs|
    requires !(path[k].stage.workers[x].Finished? && path[k].incs[x].done)
    ensures Advancing(path[k], z) || StalledBy(path[k], z, y)
  {
    RunKeepsInv(path, labels, k);
    var top := RankBound(path[k].incs, rank);
    z, y := FollowDependents(path[k], rank, top, x);
  }

  // ----- Coming to an end -----

  /** Everybody recorded as a dependent has been listed too, or has completed. */
  ghost predicate NobodyUnlisted(s: State) {
    s.stage.Working? ==>
      forall x: Id, y: Id :: x in s.stage.dependents && y in s.stage.dependents[x] ==>
        y in s.stage.order || (y < |s.incs| && s.incs[y].done)
  }

  /** What is still to be done: workers to begin, dependents to be seen completed, workers that wait for their process,
      processes to end. */
  ghost function ToBegin(s: State): set<Id>
    requires s.stage.Working?
  {
    set x | x in s.stage.workers && s.stage.workers[x].Waiting?
  }

  ghost function ToSee(s: State): set<(Id, Id)>
    requires s.stage.Working?
  {
    set x, y | x in s.stage.workers && s.stage.workers[x].Waiting? && y in s.stage.workers[x].waits :: (x, y)
  }

  ghost function ToComplete(s: State): set<Id>
    requires s.stage.Working?
  {
    set x | x in s.stage.workers && s.stage.workers[x].Completing?
  }

  ghost function ToEnd(s: State): set<Id>
    requires s.stage.Working?
  {
    set x | x in s.stage.order && !(x < |s.incs| && s.incs[x].done)
  }

  lemma Fewer<T>(few: set<T>, many: set<T>, x: T)
    requires few <= many && x in many && x !in few
    ensures |few| < |many|
  {
    assert few <= many - {x};
    assert |many - {x}| < |many|;
    SmallerOrSame(few, many - {x});
  }

  lemma {:induction false} SmallerOrSame<T>(few: set<T>, many: set<T>)
    requires few <= many
    ensures |few| <= |many|
  {
    if few != {} {
      var x :| x in few;
      SmallerOrSame(few - {x}, many - {x});
    }
  }

  /** The next step of a worker that is able to take one, or the end of the process it has only to wait for. */
  ghost function NextStep(s: State, z: Id): Label
    requires Advancing(s, z)
  {
    match s.stage.workers[z]
    case Waiting(waits) =>
      if waits == {} then BeginShutDown(z, false)
      else var y :| y in waits && y < |s.incs| && s.incs[y].done; SeeDone(z, y)
    case Completing => if s.incs[z].done then SeeCompleted(z) else End(z)
    case Finished => End(z)
  }

  /** What is still to be done has become less. */
  ghost predicate LessToDo(s: State, s': State)
    requires s.stage.Working? && s'.stage.Working?
  {
    || |ToBegin(s')| < |ToBegin(s)|
    || (ToBegin(s') == ToBegin(s) && |ToSee(s')| < |ToSee(s)|)
    || (ToBegin(s') == ToBegin(s) && ToSee(s') == ToSee(s) && |ToComplete(s')| < |ToComplete(s)|)
    || (ToBegin(s') == ToBegin(s) && ToSee(s') == ToSee(s) && ToComplete(s') == ToComplete(s)
        && |ToEnd(s')| < |ToEnd(s)|)
  }

  lemma StepHelps(s: State, z: Id)
    requires Inv(s) && Advancing(s, z)
    ensures Enabled(s, NextStep(s, z)) && Apply(s, NextStep(s, z)).stage.Working?
    ensures LessToDo(s, Apply(s, NextStep(s, z)))
  {
    var l := NextStep(s, z);
    var s' := Apply(s, l);
    match l
    case BeginShutDown(_, _) => Fewer(ToBegin(s'), ToBegin(s), z);
    case SeeDone(_, y) =>
      assert ToBegin(s') == ToBegin(s);
      Fewer(ToSee(s'), ToSee(s), (z, y));
    case SeeCompleted(_) =>
      assert ToBegin(s') == ToBegin(s) && ToSee(s') == ToSee(s);
      Fewer(ToComplete(s'), ToComplete(s), z);
    case End(_) => Fewer(ToEnd(s'), ToEnd(s), z);
  }

  lemma StepKeepsPlan(s: State, l: Label, s': State, rank: Name -> nat)
    requires Next(s, l, s') && !l.Launch? && s.stage.Working? && s'.stage.Working?
    requires Ranked(s, rank) && NobodyUnlisted(s)
    ensures Ranked(s', rank) && NobodyUnlisted(s')
  {
    StepKeepsDependents(s, l, s');
    OthersKeepNames(s, l, s');
  }

  lemma Extend(path: seq<State>, labels: seq<Label>, l: Label) returns (path': seq<State>, labels': seq<Label>)
    requires IsRun(path, labels) && Enabled(path[|labels|], l)
    ensures IsRun(path', labels') && labels' == labels + [l] && path' == path + [Apply(path[|labels|], l)]
  {
    hide Enabled, Apply;
    path', labels' := path + [Apply(path[|labels|], l)], labels + [l];
    forall k | 0 <= k < |labels'| ensures Next(path'[k], labels'[k], path'[k + 1]) {
      if k < |labels| {
        assert path'[k] == path[k] && path'[k + 1] == path[k + 1] && labels'[k] == labels[k];
      }
    }
  }

  lemma SomebodyAdvances(s: State, rank: Name -> nat, x: Id) returns (z: Id)
    requires Inv(s) && Ranked(s, rank) && NobodyUnlisted(s) && s.stage.Working?
    requires x in s.stage.workers && !s.stage.workers[x].Finished?
    ensures Advancing(s, z)
  {
    var top := RankBound(s.incs, rank);
    var y;
    z, y := FollowDependents(s, rank, top, x);
    NobodyStalls(s, z, y);
  }

  lemma NobodyStalls(s: State, z: Id, y: Id)
    requires Inv(s) && NobodyUnlisted(s) && s.stage.Working?
    ensures !StalledBy(s, z, y)
  {
    if z in s.stage.order {
      assert WorkerInv(s.incs, z, s.stage.dependents[z], s.stage.workers[z]);
    }
  }

  /** A step that brings the shutdown closer to its end. */
  lemma StepTowardsEnd(s: State, rank: Name -> nat, x: Id) returns (l: Label)
    requires Inv(s) && Ranked(s, rank) && NobodyUnlisted(s) && s.stage.Working?
    requires x in s.stage.workers && !s.stage.workers[x].Finished?
    ensures !l.Launch? && Enabled(s, l) && Apply(s, l).stage.Working? && LessToDo(s, Apply(s, l))
    ensures Ranked(Apply(s, l), rank) && NobodyUnlisted(Apply(s, l))
  {
    var z := SomebodyAdvances(s, rank, x);
    StepHelps(s, z);
    l := NextStep(s, z);
    hide Enabled, Apply, Inv, NobodyUnlisted, Ranked, ToBegin, ToSee, ToComplete, ToEnd;
    StepKeepsPlan(s, l, Apply(s, l), rank);
  }

  /** A shutdown without such a dependent can always come to its end: from any state of any run the workers, and the
      processes that have only to end, can take it to the cancellation of the application. */
  lemma {:induction false} ShutdownCanFinish(path0: seq<State>, labels0: seq<Label>, rank: Name -> nat)
    returns (path: seq<State>, labels: seq<Label>)
    requires IsRun(path0, labels0) && path0[|labels0|].stage.Working?
    requires Ranked(path0[|labels0|], rank) && NobodyUnlisted(path0[|labels0|])
    ensures IsRun(path, labels) && path0 <= path && labels0 <= labels && path[|labels|].stage.Cancelled?
    ensures forall k :: |labels0| <= k < |labels| ==> !labels[k].Launch?
    decreases |ToBegin(path0[|labels0|])|, |ToSee(path0[|labels0|])|, |ToComplete(path0[|labels0|])|,
              |ToEnd(path0[|labels0|])|
  {
    var s := path0[|labels0|];
    RunKeepsInv(path0, labels0, |labels0|);
    if x :| x in s.stage.workers && !s.stage.workers[x].Finished? {
      var l := StepTowardsEnd(s, rank, x);
      hide Enabled, Apply, Next, Inv, NobodyUnlisted, Ranked, ToBegin, ToSee, ToComplete, ToEnd;
      path, labels := Extend(path0, labels0, l);
      path, labels := ShutdownCanFinish(path, labels, rank);
    } else {
      path, labels := Extend(path0, labels0, AllFinished);
    }
  }

  /** The processes that have completed can leave: from any state of any run the registry can come to hold exactly the
      unfinished ones of those it holds. */
  lemma {:induction false} CompletedCanLeave(path0: seq<State>, labels0: seq<Label>)
    returns (path: seq<State>, labels: seq<Label>)
    requires IsRun(path0, labels0)
    ensures IsRun(path, labels) && path0 <= path && labels0 <= labels
    ensures var s := path0[|labels0|];
            && (forall n :: n in s.running ==> s.running[n] < |s.incs|)
            && path[|labels|] == s.(running := map n | n in s.running && !s.incs[s.running[n]].done :: s.running[n])
    decreases path0[|labels0|].running.Keys
  {
    var s := path0[|labels0|];
    RunKeepsInv(path0, labels0, |labels0|);
    if n :| n in s.running && s.incs[s.running[n]].done {
      var l := Leave(s.running[n]);
      assert Apply(s, l) == s.(running := s.running - {n});
      path, labels := Extend(path0, labels0, l);
      path, labels := CompletedCanLeave(path, labels);
    } else {
      path, labels := path0, labels0;
      assert s.running == map n | n in s.running && !s.incs[s.running[n]].done :: s.running[n];
    }
  }

  // ----- When a shutdown can stall -----

  /** A stall is always on a dependent that was recorded, but not listed to be shut down. */
  lemma StallsOnlyOnUnlisted(path: seq<State>, labels: seq<Label>, j: nat, k: nat, x: Id, y: Id)
    requires IsRun(path, labels) && DependentsTakenAt(path, labels, j) && j < k < |path|
    requires StalledBy(path[k], x, y)
    ensures path[j].stage.Ordered? && x in path[j].stage.order && y !in path[j].stage.order
    ensures x < |path[j].incs| && y in RunningDependents(path[j], x)
  {
    assert Next(path[j], labels[j], path[j + 1]);
    RunKeepsInv(path, labels, k);
    DependentsKept(path, labels, j, k);
    var s := path[k];
    assert WorkerInv(s.incs, x, s.stage.dependents[x], s.stage.workers[x]);
  }

  /** Conversely, an unlisted dependent that is still unfinished when the dependents are recorded stalls the
      shutdown there and then. */
  lemma UnlistedStalls(path: seq<State>, labels: seq<Label>, j: nat, x: Id, y: Id)
    requires IsRun(path, labels) && DependentsTakenAt(path, labels, j)
    requires path[j].stage.Ordered? && x in path[j].stage.order && y !in path[j].stage.order
    requires x < |path[j].incs| && y in RunningDependents(path[j], x) && y < |path[j].incs| && !path[j].incs[y].done
    ensures StalledBy(path[j + 1], x, y)
  {
    assert Next(path[j], labels[j], path[j + 1]);
  }

  /** Between listing the processes at step i and step k nothing was launched, and everything running at step i
      was listed. */
  ghost predicate AllListedSince(path: seq<State>, labels: seq<Label>, i: nat, k: nat) {
    && i < k <= |labels| < |path|
    && labels[i] == TakeOrder(path[i].running.Values)
    && forall m :: i < m < k ==> !labels[m].Launch?
  }

  lemma {:induction false} ListedStays(path: seq<State>, labels: seq<Label>, i: nat, k: nat)
    requires IsRun(path, labels) && AllListedSince(path, labels, i, k) && path[k].stage.Ordered?
    ensures path[k].running.Values <= path[k].stage.order
    decreases k
  {
    assert Next(path[k - 1], labels[k - 1], path[k]);
    if i + 1 < k {
      StillOrdered(path[k - 1], labels[k - 1], path[k]);
      if path[k - 1].stage.Ordered? {
        ListedStays(path, labels, i, k - 1);
      } else {
        OrderedSince(path, labels, i, k - 1);
      }
    }
  }

  lemma StillOrdered(s: State, l: Label, s': State)
    requires Next(s, l, s') && s'.stage.Ordered?
    ensures s.stage.Ordered? || s.stage.Idle?
    ensures s.stage.Ordered? ==> s'.stage == s.stage
    ensures s.stage.Ordered? && !l.Launch? ==> s'.running.Values <= s.running.Values
  {
    if s.stage.Ordered? && !l.Launch? {
      forall v | v in s'.running.Values ensures v in s.running.Values {
        var n :| n in s'.running && s'.running[n] == v;
        assert s.running[n] == v;
      }
    }
  }

  lemma {:induction false} OrderedSince(path: seq<State>, labels: seq<Label>, i: nat, k: nat)
    requires IsRun(path, labels) && i < k < |path| && i < |labels| && labels[i].TakeOrder?
    ensures !path[k].stage.Idle?
    decreases k
  {
    assert Next(path[k - 1], labels[k - 1], path[k]);
    if i + 1 < k {
      OrderedSince(path, labels, i, k - 1);
    }
  }

  /** An ordered shutdown never deadlocks when everything that was running was listed at step i and nothing was
      launched until the dependents were recorded at step j: with acyclic dependencies every later state with a
      process still to be shut down or to end has a worker that can take a step at once, or a process that has
      been shut down and has only to end. */
  lemma NoShutdownDeadlock(path: seq<State>, labels: seq<Label>, i: nat, j: nat, k: nat, rank: Name -> nat, x: Id)
    returns (z: Id)
    requires IsRun(path, labels) && AllListedSince(path, labels, i, j) && DependentsTakenAt(path, labels, j)
    requires j < k < |path| && Ranked(path[k], rank) && path[k].stage.Working?
    requires x in path[k].stage.order && x in path[k].stage.workers && x < |path[k].incs|
    requires !(path[k].stage.workers[x].Finished? && path[k].incs[x].done)
    ensures Advancing(path[k], z)
  {
    var y;
    z, y := AdvancesOrStalls(path, labels, k, rank, x);
    if StalledBy(path[k], z, y) {
      StallsOnlyOnUnlisted(path, labels, j, k, z, y);
      ListedStays(path, labels, i, j);
      assert false;
    }
  }

  // ----- Both ways to stall happen -----

  /** Unless that dependent ends by itself, the stall is forever: shutDown(x) never begins. */
  lemma StallStays(s: State, l: Label, s': State, x: Id, y: Id)
    requires StalledBy(s, x, y) && Next(s, l, s') && l != End(y)
    ensures StalledBy(s', x, y) && !(l.BeginShutDown? && l.id == x)
  {
  }

  /** The state in which a has been listed for shutdown and b, which depends on it, was launched after that. */
  function LateState(a: Name, b: Name): State {
    State([Incarnation(a, {}, false, false), Incarnation(b, {a}, false, false)], map[a := 0, b := 1], Ordered({0}))
  }

  lemma LateDependentTaken(a: Name, b: Name) returns (s: State)
    requires a != b
    ensures Next(LateState(a, b), TakeDependents, s) && StalledBy(s, 0, 1)
    ensures s.incs == LateState(a, b).incs
  {
    var late := LateState(a, b);
    assert 1 in late.running.Values by { assert late.running[b] == 1; }
    assert RunningDependents(late, 0) == {1};
    s := Apply(late, TakeDependents);
  }

  /** Such a stall is reached when a dependent is launched after the processes to shut down were listed and
      before their dependents were. */
  lemma LateDependentStalls(a: Name, b: Name) returns (path: seq<State>, labels: seq<Label>)
    requires a != b
    ensures IsRun(path, labels) && StalledBy(path[|labels|], 0, 1)
    ensures Ranked(path[|labels|], n => if n == a then 0 else 1)
  {
    var s0 := State([], map[], Idle);
    var s1 := State([Incarnation(a, {}, false, false)], map[a := 0], Idle);
    var s2 := s1.(stage := Ordered({0}));
    var s3 := LateState(a, b);
    assert s1.running.Values == {0} by { assert s1.running[a] == 0; }
    assert Next(s0, Launch(a, {}), s1) && Next(s1, TakeOrder({0}), s2) && Next(s2, Launch(b, {a}), s3);
    var s4 := LateDependentTaken(a, b);
    hide Next, StalledBy;
    path := [s0, s1, s2, s3, s4];
    labels := [Launch(a, {}), TakeOrder({0}), Launch(b, {a}), TakeDependents];
  }

  /** A running dependent that was not listed, since the walk gave it up: the other process it depends on,
      called `missing`, is undefined. */
  function UnlistedState(a: Name, b: Name, missing: Name): State {
    State([Incarnation(a, {}, false, false), Incarnation(b, {a, missing}, false, false)], map[a := 0, b := 1],
          Ordered({0}))
  }

  lemma UnlistedDependentTaken(a: Name, b: Name, missing: Name) returns (s: State)
    requires a != b
    ensures Next(UnlistedState(a, b, missing), TakeDependents, s) && StalledBy(s, 0, 1)
    ensures s.incs == UnlistedState(a, b, missing).incs
  {
    var taken := UnlistedState(a, b, missing);
    assert 1 in taken.running.Values by { assert taken.running[b] == 1; }
    assert RunningDependents(taken, 0) == {1};
    s := Apply(taken, TakeDependents);
  }

  /** The same stall without any launch after the listing: the dependent was running all along, and was left
      out because something else it depends on is undefined. */
  lemma UnlistedDependentStalls(a: Name, b: Name, missing: Name) returns (path: seq<State>, labels: seq<Label>)
    requires a != b && missing != a && missing != b
    ensures IsRun(path, labels) && StalledBy(path[|labels|], 0, 1)
    ensures |labels| == 4 && labels[2] == TakeOrder({0}) && labels[3] == TakeDependents
    ensures path[2].running == map[a := 0, b := 1] && missing in path[2].incs[1].deps
    ensures Ranked(path[|labels|], n => if n == b then 1 else 0)
  {
    var s0 := State([], map[], Idle);
    var s1 := State([Incarnation(a, {}, false, false)], map[a := 0], Idle);
    var s3 := UnlistedState(a, b, missing);
    var s2 := s3.(stage := Idle);
    assert 0 in s2.running.Values by { assert s2.running[a] == 0; }
    assert Next(s0, Launch(a, {}), s1) && Next(s1, Launch(b, {a, missing}), s2) && Next(s2, TakeOrder({0}), s3);
    var s4 := UnlistedDependentTaken(a, b, missing);
    hide Next, StalledBy;
    path := [s0, s1, s2, s3, s4];
    labels := [Launch(a, {}), Launch(b, {a, missing}), TakeOrder({0}), TakeDependents];
  }
}

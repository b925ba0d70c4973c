/** The runner's operations as they are written: methods that update the runner's fields, one critical
    section after the other, with the steps of any other goroutines in between. Each section is a step of
    the protocol machine; what a whole call achieves is stated over the run it is part of. */
module Runner {
  import opened Common
  import opened RunnerProtocol
  import opened StopRestart
  import opened Completion

  // ----- Runs that go on -----

  datatype Run = Run(path: seq<State>, labels: seq<Label>)

  ghost predicate Proper(r: Run) {
    IsRun(r.path, r.labels)
  }

  ghost predicate Continues(r: Run, r': Run) {
    Proper(r) && Proper(r') && r.path <= r'.path && r.labels <= r'.labels
  }

  ghost function Now(r: Run): State
    requires Proper(r)
  {
    r.path[|r.labels|]
  }

  /** r' is r with one more step. */
  ghost predicate Took(r: Run, r': Run, l: Label) {
    && Continues(r, r') && Enabled(Now(r), l)
    && |r'.labels| == |r.labels| + 1 && r'.labels[|r.labels|] == l && Now(r') == Apply(Now(r), l)
  }

  lemma Longer(r: Run, l: Label) returns (r': Run)
    requires Proper(r) && Enabled(Now(r), l)
    ensures Took(r, r', l)
  {
    hide Enabled, Apply;
    r' := Run(r.path + [Apply(Now(r), l)], r.labels + [l]);
    Extend(r.path, r.labels, l);
  }

  lemma ContinuesOn(r: Run, r': Run, r'': Run)
    requires Continues(r, r') && Continues(r', r'')
    ensures Continues(r, r'')
  {
    hide IsRun;
  }

  lemma InvNow(r: Run)
    requires Proper(r)
    ensures Inv(Now(r)) && CountInv(Now(r)) && RegistryInv(Now(r).running, Now(r).incs)
  {
    RunKeepsFullInv(r.path, r.labels, |r.labels|);
  }

  /** Step k of the run was operation t at place pc, for the process `name`. */
  ghost predicate Did(r: Run, k: nat, t: Tid, pc: Pc, name: Name) {
    StepIs(r.path, r.labels, k, t, pc) && r.path[k].ops[t].name == name
  }

  lemma DidNow(r: Run, r': Run, t: Tid, pc: Pc, name: Name)
    requires Took(r, r', Api(t, Go)) && t < |Now(r).ops| && Now(r).ops[t].pc == pc && Now(r).ops[t].name == name
    ensures |r.labels| + 2 == |r'.path| && Did(r', |r.labels|, t, pc, name)
    ensures r'.path[|r.labels|] == Now(r) && r'.path[|r.labels| + 1] == Now(r')
  {
  }

  lemma PastStays(r: Run, r': Run, k: nat)
    requires Continues(r, r') && k <= |r.labels|
    ensures r'.path[k] == r.path[k]
    ensures forall t: Tid, pc: Pc, name: Name :: k < |r.labels| && Did(r, k, t, pc, name) ==> Did(r', k, t, pc, name)
  {
  }

  lemma PathStays(r: Run, r': Run)
    requires Continues(r, r')
    ensures |r.path| == |r.labels| + 1 && |r'.path| == |r'.labels| + 1 && |r.path| <= |r'.path|
    ensures forall k :: 0 <= k < |r.path| ==> r'.path[k] == r.path[k]
  {
  }

  // ----- What a caller is told, and what holds from then on -----

  /** No incarnation of n that is the newest of its name is unfinished. */
  ghost predicate NothingRuns(s: State, n: Name) {
    forall i: Id :: Newest(s.incs, i) && s.incs[i].name == n ==> !s.incs[i].fate.Alive?
  }

  lemma LookedUp(s: State, n: Name)
    requires RegistryInv(s.running, s.incs)
    ensures n !in s.running <==> NothingRuns(s, n)
    ensures n in s.running ==> Newest(s.incs, s.running[n]) && s.incs[s.running[n]].name == n
  {
  }

  /** However the run goes on, no restart of n that sampled its epoch before step j launches after it. */
  ghost predicate Outlasts(r: Run, j: nat, n: Name) {
    forall r': Run, i: nat, k: nat, c: Tid ::
      Continues(r, r') && i < j < k && Did(r', i, c, Sample, n) && r'.path[i].ops[c].kind == RestartK ==>
      !StepIs(r'.path, r'.labels, k, c, Register)
  }

  lemma NoteOutlasts(r: Run, j: nat, t: Tid, n: Name)
    requires Proper(r) && Did(r, j, t, Note, n)
    ensures Outlasts(r, j, n)
  {
    forall r': Run, i: nat, k: nat, c: Tid |
      Continues(r, r') && i < j < k && Did(r', i, c, Sample, n) && r'.path[i].ops[c].kind == RestartK
      ensures !StepIs(r'.path, r'.labels, k, c, Register)
    {
      PastStays(r, r', j);
      NoLaunchAfterNote(r'.path, r'.labels, i, j, k, c, t);
    }
  }

  /** Operation t took step k at place pc, whatever came of it. */
  ghost predicate Passed(r: Run, k: nat, t: Tid, pc: Pc, name: Name) {
    && k < |r.labels| < |r.path| && r.labels[k].Api? && r.labels[k].t == t
    && t < |r.path[k].ops| && r.path[k].ops[t].pc == pc && r.path[k].ops[t].name == name
  }

  lemma PassedNow(r: Run, r': Run, a: OpAct, t: Tid, pc: Pc, name: Name)
    requires Took(r, r', Api(t, a)) && t < |Now(r).ops| && Now(r).ops[t].pc == pc && Now(r).ops[t].name == name
    ensures Passed(r', |r.labels|, t, pc, name)
  {
  }

  lemma PassedStays(r: Run, r': Run, k: nat, t: Tid, pc: Pc, name: Name)
    requires Continues(r, r') && Passed(r, k, t, pc, name)
    ensures Passed(r', k, t, pc, name)
  {
    hide IsRun;
    PathStays(r, r');
  }

  /** From step `from` on and before step `to`, operation t looked the process up, and shut down what it found. */
  ghost predicate TornDown(r: Run, from: nat, to: nat, t: Tid, n: Name) {
    exists l: nat ::
      && from <= l < to && Did(r, l, t, Look, n)
      && (n in r.path[l].running ==> exists d: nat :: l < d < to && Passed(r, d, t, Down, n))
  }

  lemma TornDownKept(r: Run, r': Run, from: nat, to: nat, t: Tid, n: Name)
    requires Continues(r, r') && TornDown(r, from, to, t, n) && to <= |r.labels|
    ensures TornDown(r', from, to, t, n)
  {
    hide IsRun;
    var l: nat :|
      && from <= l < to && Did(r, l, t, Look, n)
      && (n in r.path[l].running ==> exists d: nat :: l < d < to && Passed(r, d, t, Down, n));
    PathStays(r, r');
    if n in r.path[l].running {
      var d: nat :| l < d < to && Passed(r, d, t, Down, n);
      assert Passed(r', d, t, Down, n);
    }
    assert Did(r', l, t, Look, n);
  }

  lemma TornDownWithin(r: Run, from: nat, from': nat, to: nat, to': nat, t: Tid, n: Name)
    requires TornDown(r, from, to, t, n) && from' <= from && to <= to'
    ensures TornDown(r, from', to', t, n)
  {
    var l: nat :|
      && from <= l < to && Did(r, l, t, Look, n)
      && (n in r.path[l].running ==> exists d: nat :: l < d < to && Passed(r, d, t, Down, n));
    assert from' <= l < to';
  }

  /** Operation t paused the triggers of n: none was armed afterwards. */
  ghost predicate Disarmed(r: Run, t: Tid, n: Name) {
    exists p: nat :: p + 1 < |r.path| && Did(r, p, t, Pause, n) && n !in r.path[p + 1].comp.armed
  }

  /** What a stop says that found nothing running: nothing is wrong if a trigger is armed or a restart is in
      flight; otherwise the process is not running, or does not exist. */
  ghost predicate Answer(r: Run, t: Tid, n: Name, err: StopError) {
    exists a: nat ::
      && Did(r, a, t, AskArmed, n)
      && if n in r.path[a].comp.armed then err == NoError
         else exists q: nat :: a < q && RestartAnswer(r, q, t, n, err)
  }

  ghost predicate RestartAnswer(r: Run, q: nat, t: Tid, n: Name, err: StopError) {
    && q + 1 < |r.path| && Did(r, q, t, AskRestart, n)
    && err == if n in r.path[q].co.calls then NoError
              else if n in r.path[q + 1].defined then NotRunning else DoesNotExist
  }

  lemma AnswerStays(r: Run, r': Run, t: Tid, n: Name, err: StopError)
    requires Continues(r, r') && Answer(r, t, n, err)
    ensures Answer(r', t, n, err)
  {
    hide IsRun;
    PathStays(r, r');
    var a: nat :|
      && Did(r, a, t, AskArmed, n)
      && if n in r.path[a].comp.armed then err == NoError
         else exists q: nat :: a < q && RestartAnswer(r, q, t, n, err);
    assert Did(r', a, t, AskArmed, n);
    if n !in r.path[a].comp.armed {
      var q: nat :| a < q && RestartAnswer(r, q, t, n, err);
      assert RestartAnswer(r', q, t, n, err);
    }
  }

  datatype StopError = NoError | ShutDownFailed | NotRunning | DoesNotExist

  datatype RestartResult = Joined | StopFailed | NoSuchProcess | Dropped | Launched(process: Id)

  /** A restart that sampled the epoch at one step and compared it at another, and what came of it: `added`
      is the step of its launch. */
  ghost predicate Compared(r: Run, t: Tid, n: Name, sampled: nat, compared: nat, added: nat, res: RestartResult) {
    && sampled < compared && Did(r, sampled, t, Sample, n) && Did(r, compared, t, Compare, n)
    && TornDown(r, sampled, compared, t, n)
    && (res.Dropped? <==> NotedBetween(r.path, r.labels, sampled, compared, n))
    && (res.NoSuchProcess? ==> n !in r.path[compared].defined)
    && (res.Launched? ==>
          && compared < added && Did(r, added, t, Register, n) && res.process == |r.path[added].incs|
          && !NotedBetween(r.path, r.labels, sampled, added, n))
  }

  /** What was torn down between sampling and comparing, up to a run r, is so in the run r' it goes on to. */
  lemma RestartCompared(r: Run, r': Run, from: nat, t: Tid, n: Name, sampled: nat, compared: nat, added: nat,
                        res: RestartResult)
    requires Continues(r, r') && sampled <= from <= |r.labels| <= compared && sampled < |r.labels|
    requires TornDown(r, from, |r.labels|, t, n) && Did(r, sampled, t, Sample, n) && Did(r', compared, t, Compare, n)
    requires r.path[sampled].ops[t].kind == RestartK
    requires res.Dropped? <==> Epoch(r'.path[compared].co, n) != Epoch(r.path[sampled].co, n)
    requires res.NoSuchProcess? ==> n !in r'.path[compared].defined
    requires res.Launched? ==>
               compared < added && Did(r', added, t, Register, n) && res.process == |r'.path[added].incs|
    ensures Compared(r', t, n, sampled, compared, added, res)
  {
    PastStays(r, r', sampled);
    TornDownKept(r, r', from, |r.labels|, t, n);
    TornDownWithin(r', from, sampled, |r.labels|, compared, t, n);
    hide IsRun, Epoch, TornDown;
    ComparedNotes(r', t, n, sampled, compared, added, res);
  }

  lemma ComparedNotes(r: Run, t: Tid, n: Name, sampled: nat, compared: nat, added: nat, res: RestartResult)
    requires Proper(r) && sampled < compared && Did(r, sampled, t, Sample, n) && Did(r, compared, t, Compare, n)
    requires r.path[sampled].ops[t].kind == RestartK && TornDown(r, sampled, compared, t, n)
    requires res.Dropped? <==> Epoch(r.path[compared].co, n) != Epoch(r.path[sampled].co, n)
    requires res.NoSuchProcess? ==> n !in r.path[compared].defined
    requires res.Launched? ==>
               compared < added && Did(r, added, t, Register, n) && res.process == |r.path[added].incs|
    ensures Compared(r, t, n, sampled, compared, added, res)
  {
    hide IsRun, Epoch, TornDown;
    EpochTellsNotes(r.path, r.labels, sampled, compared, n);
    if res.Launched? && NotedBetween(r.path, r.labels, sampled, added, n) {
      var j: nat, u: Tid :|
        sampled <= j < added && StepIs(r.path, r.labels, j, u, Note) && r.path[j].ops[u].name == n;
      NoLaunchAfterNote(r.path, r.labels, sampled, j, added, t, u);
    }
  }

  lemma ComparedStays(r: Run, r': Run, t: Tid, n: Name, sampled: nat, compared: nat, added: nat, res: RestartResult)
    requires Continues(r, r') && Compared(r, t, n, sampled, compared, added, res)
    ensures Compared(r', t, n, sampled, compared, added, res)
  {
    PastStays(r, r', sampled);
    PastStays(r, r', compared);
    TornDownKept(r, r', sampled, compared, t, n);
    hide TornDown;
    NotesStay(r, r', sampled, compared, n);
    if res.Launched? {
      PastStays(r, r', added);
      NotesStay(r, r', sampled, added, n);
    }
  }

  lemma NotesStay(r: Run, r': Run, i: nat, k: nat, n: Name)
    requires Continues(r, r') && k <= |r.labels|
    ensures NotedBetween(r'.path, r'.labels, i, k, n) == NotedBetween(r.path, r.labels, i, k, n)
  {
    forall j: nat, t: Tid | i <= j < k
      ensures StepIs(r'.path, r'.labels, j, t, Note) == StepIs(r.path, r.labels, j, t, Note)
      ensures r'.path[j] == r.path[j]
    {
      PastStays(r, r', j);
    }
  }

  /** Operation t tried to queue a zero: one is queued afterwards, unless the channel was full. */
  ghost predicate ZeroTried(r: Run, sent: nat, t: Tid, n: Name) {
    && sent < |r.labels| < |r.path| && Did(r, sent, t, Send, n)
    && (0 in r.path[sent + 1].comp.queue || |r.path[sent].comp.queue| >= CAP)
  }

  /** From step `from` on, operation t counted the running processes, and having found none tried to queue a zero. */
  ghost predicate Rechecked(r: Run, from: nat, t: Tid, n: Name) {
    exists read: nat ::
      && from <= read && Did(r, read, t, Read, n)
      && (r.path[read].running == map[] ==> exists sent: nat :: read < sent && ZeroTried(r, sent, t, n))
  }

  lemma RecheckedEarlier(r: Run, i: nat, j: nat, t: Tid, n: Name)
    requires Rechecked(r, j, t, n) && i <= j
    ensures Rechecked(r, i, t, n)
  {
    var read: nat :|
      && j <= read && Did(r, read, t, Read, n)
      && (r.path[read].running == map[] ==> exists sent: nat :: read < sent && ZeroTried(r, sent, t, n));
    assert i <= read;
  }

  /** Operation t has been an update in flight from state `from` on. */
  ghost predicate InFlightSince(r: Run, from: nat, t: Tid) {
    && from < |r.path|
    && forall k :: from <= k < |r.path| ==> t < |r.path[k].ops| && InFlight(r.path[k].ops[t])
  }

  lemma InFlightFrom(r: Run, t: Tid)
    requires Proper(r) && t < |Now(r).ops| && InFlight(Now(r).ops[t])
    ensures InFlightSince(r, |r.labels|, t)
  {
  }

  lemma InFlightNow(r: Run, from: nat, t: Tid)
    requires Proper(r) && InFlightSince(r, from, t)
    ensures t < |Now(r).ops| && InFlight(Now(r).ops[t])
  {
  }

  lemma OwnWork(s: State, l: Label, s': State, t: Tid)
    requires Next(s, l, s') && l != Api(t, EndUpdate) && t < |s.ops| && InFlight(s.ops[t])
    requires KindAt(s.ops[t].kind, s.ops[t].pc)
    ensures t < |s'.ops| && InFlight(s'.ops[t])
  {
    if !Mine(Call(t), l) {
      OthersKeep(Call(t), s, l, s');
    }
  }

  lemma StillInFlight(r: Run, r': Run, l: Label, from: nat, t: Tid)
    requires Took(r, r', l) && l != Api(t, EndUpdate) && InFlightSince(r, from, t)
    ensures InFlightSince(r', from, t)
  {
    hide Enabled, Apply, InFlight;
    InvNow(r);
    assert KindAt(Now(r).ops[t].kind, Now(r).ops[t].pc);
    OwnWork(Now(r), l, Now(r'), t);
    hide IsRun;
    assert |r'.path| == |r.path| + 1;
    forall k | from <= k < |r'.path| ensures t < |r'.path[k].ops| && InFlight(r'.path[k].ops[t]) {
      assert k < |r.path| ==> r'.path[k] == r.path[k];
    }
  }

  /** How many steps an update is from being between two of its actions. */
  function WorkLeft(pc: Pc): nat {
    match pc
    case Define => 2
    case Undefine => 3
    case Look => 2
    case Down => 1
    case Register => 1
    case _ => 0
  }

  lemma WorkGoesOn(r: Run, from: nat, t: Tid)
    requires Proper(r) && InFlightSince(r, from, t) && t < |Now(r).ops| && Now(r).ops[t].pc != Busy
    ensures Enabled(Now(r), Api(t, Go))
    ensures var s' := Apply(Now(r), Api(t, Go));
            t < |s'.ops| && WorkLeft(s'.ops[t].pc) < WorkLeft(Now(r).ops[t].pc)
  {
    InvNow(r);
    assert KindAt(Now(r).ops[t].kind, Now(r).ops[t].pc);
    assert InFlight(Now(r).ops[t]);
    var pc := Now(r).ops[t].pc;
    assert pc == Define || pc == Undefine || pc == Look || pc == Down || pc == Register;
  }

  lemma CountedOut(r: Run)
    requires Proper(r) && CountInv(Now(r))
    ensures Now(r).comp.updates == 0 <==> Updating(Now(r).ops) == {}
  {
  }

  /** While an update is in flight the counter is above zero. */
  lemma InFlightCounts(r: Run, from: nat, t: Tid)
    requires Proper(r) && InFlightSince(r, from, t)
    ensures forall k :: from <= k < |r.path| ==> r.path[k].comp.updates > 0
  {
    forall k | from <= k < |r.path| ensures r.path[k].comp.updates > 0 {
      RunKeepsFullInv(r.path, r.labels, k);
      assert t in Updating(r.path[k].ops);
    }
  }

  function Following(loop: LoopPc): LoopPc {
    match loop
    case CheckRestarts => CheckUpdates
    case CheckUpdates => CheckRunning
    case CheckRunning => CheckTriggers
    case _ => Complete
  }

  /** Nothing stands against completion in what the loop is looking at. */
  predicate Passes(s: State) {
    match s.comp.loop
    case CheckRestarts => s.co.calls == {}
    case CheckUpdates => s.comp.updates <= 0
    case CheckRunning => s.running == map[]
    case _ => s.comp.armed == {}
  }

  function Stage(i: nat): LoopPc {
    if i == 0 then CheckRestarts else if i == 1 then CheckUpdates else if i == 2 then CheckRunning
    else if i == 3 then CheckTriggers else Complete
  }

  /** The loop's checks after it received a count: in which states it looked, all but perhaps the last passing. */
  ghost predicate Looked(r: Run, received: nat, looks: seq<nat>) {
    forall i :: 0 <= i < |looks| ==>
      && received < looks[i] < |r.path| && r.path[looks[i]].comp.loop == Stage(i)
      && (i > 0 ==> looks[i - 1] < looks[i])
      && (i + 1 < |looks| ==> Passes(r.path[looks[i]]))
  }

  /** How an incarnation leaves the registry: it is removed exactly if it is the newest of its name or nobody
      of its name is registered, and nobody else is ever removed. */
  ghost predicate Departed(s: State, s': State, id: Id, n: Name, removed: bool) {
    && (removed <==> Newest(s.incs, id) || NothingRuns(s, n))
    && s'.running == if Newest(s.incs, id) then s.running - {n} else s.running
  }

  lemma DepartedBy(s: State, id: Id, removed: bool, s': State)
    requires RegistryInv(s.running, s.incs) && id < |s.incs| && s.incs[id].fate.Alive?
    requires var n := s.incs[id].name;
             && (removed <==> n !in s.running || s.running[n] == id)
             && s'.running == if removed then s.running - {n} else s.running
    ensures Departed(s, s', id, s.incs[id].name, removed)
  {
    var n := s.incs[id].name;
    LookedUp(s, n);
    if n in s.running {
      assert Newest(s.incs, s.running[n]);
      assert s.running[n] == id <==> Newest(s.incs, id);
    } else {
      assert !Newest(s.incs, id);
      assert s.running - {n} == s.running;
    }
  }

  /** The goroutine a method runs on: the call of an operation, the completion loop, or a process. */
  datatype Who = Call(t: Tid) | TheLoop | Process(id: Id)

  predicate Mine(who: Who, l: Label) {
    match who
    case Call(t) => l.Api? && l.t == t
    case TheLoop => l.Loop?
    case Process(id) => l.Leave? && l.id == id
  }

  /** What only goroutine `who` changes. */
  predicate Keeps(who: Who, s: State, s': State) {
    match who
    case Call(t) => t < |s.ops| && t < |s'.ops| && s'.ops[t] == s.ops[t]
    case TheLoop => s'.comp.loop == s.comp.loop
    case Process(id) => id < |s.incs| && id < |s'.incs| && s'.incs[id] == s.incs[id]
  }

  /** A step of operation t moves only that operation, and leaves the loop and all incarnations where they are. */
  ghost predicate MovesOnly(s: State, t: Tid, s': State) {
    && |s'.ops| == |s.ops| && (forall u: Tid :: u < |s.ops| && u != t ==> s'.ops[u] == s.ops[u])
    && |s.incs| <= |s'.incs| && (forall i: Id :: i < |s.incs| ==> s'.incs[i] == s.incs[i])
    && s'.comp.loop == s.comp.loop
  }

  lemma CoalesceMovesOnly(s: State, t: Tid)
    requires t < |s.ops| && (NeedsLock(s.ops[t].pc) || s.ops[t].pc == Unlock)
    ensures MovesOnly(s, t, CoalesceStep(s, t))
  {
  }

  lemma RegistryMovesOnly(s: State, t: Tid, failed: bool)
    requires t < |s.ops| && AtRegistry(s.ops[t].pc)
    ensures MovesOnly(s, t, RegistryStep(s, t, failed))
  {
  }

  lemma CheckMovesOnly(s: State, t: Tid, a: OpAct)
    requires t < |s.ops| && AtCheck(s.ops[t].pc)
    ensures MovesOnly(s, t, CheckStep(s, t, a))
  {
  }

  lemma OpMovesOnly(s: State, t: Tid, a: OpAct)
    requires OpEnabled(s, t, a)
    ensures MovesOnly(s, t, OpStep(s, t, a))
  {
    hide CoalesceStep, RegistryStep, CheckStep, MovesOnly;
    var pc := s.ops[t].pc;
    if NeedsLock(pc) || pc == Unlock {
      CoalesceMovesOnly(s, t);
    } else if AtCheck(pc) {
      CheckMovesOnly(s, t, a);
    } else {
      RegistryMovesOnly(s, t, a == Failed);
    }
  }

  lemma OthersKeep(who: Who, s: State, l: Label, s': State)
    requires Next(s, l, s') && !Mine(who, l) && Keeps(who, s, s)
    ensures Keeps(who, s, s')
  {
    hide OpStep;
    if l.Api? {
      OpMovesOnly(s, l.t, l.act);
    }
  }

  /** Whoever holds restartMutex is on its way to releasing it. */
  lemma HolderMoves(s: State)
    requires Inv(s) && s.co.lock.Some?
    ensures var l := Api(s.co.lock.value, Go);
            && Enabled(s, l)
            && (s.ops[s.co.lock.value].pc == Unlock ==> Apply(s, l).co.lock == None)
            && (s.ops[s.co.lock.value].pc != Unlock ==>
                  && Apply(s, l).co.lock == s.co.lock && s.co.lock.value < |Apply(s, l).ops|
                  && Apply(s, l).ops[s.co.lock.value].pc == Unlock)
  {
    var t := s.co.lock.value;
    assert HoldsLock(s.ops[t]);
  }

  /** The state others lead to when they take steps in turn, each if it can. */
  function AfterOthers(s: State, steps: seq<Label>, who: Who): State {
    if steps == [] then s
    else
      var mid, l := AfterOthers(s, steps[..|steps| - 1], who), steps[|steps| - 1];
      if Enabled(mid, l) && !Mine(who, l) then Apply(mid, l) else mid
  }

  class ProjectRunner {
    var runningProcesses: map<Name, Id>
    var processes: set<Name>
    var restartCalls: set<Name>
    var stopEpochs: map<Name, nat>
    var restartMutex: Option<Tid>
    var procCompleteChannel: seq<nat>
    var updatesInFlight: int
    var watched: set<Name>
    var loop: LoopPc
    /** Every process object launched so far, and every call so far with the place it has come to. */
    var objects: seq<Incarnation>
    var calls: seq<Op>
    /** How the runner got here. */
    ghost var run: Run

    function Abs(): State
      reads this
    {
      State(runningProcesses, processes, Coalescing(restartCalls, stopEpochs, restartMutex),
            RunnerProtocol.Completion(loop, procCompleteChannel, updatesInFlight, watched), objects, calls)
    }

    ghost predicate Valid()
      reads this
    {
      Proper(run) && Now(run) == Abs()
    }

    constructor (processes: set<Name>, watched: set<Name>)
      ensures Valid() && run.labels == [] && Abs().defined == processes && Abs().comp.armed == watched
    {
      this.processes, this.watched := processes, watched;
      runningProcesses, restartCalls, stopEpochs, restartMutex := map[], {}, map[], None;
      procCompleteChannel, updatesInFlight, loop, objects, calls := [], 0, Booting, [], [];
      run := Run([State(map[], processes, Coalescing({}, map[], None),
                        RunnerProtocol.Completion(Booting, [], 0, watched), [], [])], []);
    }

    /** The fields have just changed as step l says. */
    ghost method Record(l: Label)
      requires Proper(run) && Enabled(Now(run), l) && Abs() == Apply(Now(run), l)
      modifies `run
      ensures Valid() && Took(old(run), run, l)
    {
      run := Longer(run, l);
    }

    /** Some goroutine takes a step. */
    method Perform(l: Label)
      requires Valid() && Enabled(Abs(), l)
      modifies this
      ensures Valid() && Took(old(run), run, l)
    {
      hide Enabled, Apply, IsRun;
      var s := Apply(Abs(), l);
      runningProcesses, processes, objects, calls := s.running, s.defined, s.incs, s.ops;
      restartCalls, stopEpochs, restartMutex := s.co.calls, s.co.epochs, s.co.lock;
      loop, procCompleteChannel := s.comp.loop, s.comp.queue;
      updatesInFlight, watched := s.comp.updates, s.comp.armed;
      Record(l);
    }

    /** Some other goroutine takes a step, if it can. */
    method OtherStep(l: Label, who: Who)
      requires Valid() && Keeps(who, Abs(), Abs())
      modifies this
      ensures Valid() && Keeps(who, old(Abs()), Abs())
      ensures if Enabled(old(Abs()), l) && !Mine(who, l) then Took(old(run), run, l) else run == old(run)
    {
      hide Enabled, Apply, IsRun;
      if Enabled(Abs(), l) && !Mine(who, l) {
        OthersKeep(who, Abs(), l, Apply(Abs(), l));
        Perform(l);
      }
    }

    /** Whatever other goroutines do meanwhile. */
    method Others(steps: seq<Label>, who: Who)
      requires Valid() && Keeps(who, Abs(), Abs())
      modifies this
      ensures Valid() && Continues(old(run), run) && Keeps(who, old(Abs()), Abs())
      ensures Abs() == AfterOthers(old(Abs()), steps, who)
    {
      hide IsRun, Enabled, Apply, Keeps, Mine;
      ghost var before, start := run, Abs();
      assert steps[..|steps|] == steps;
      for i := 0 to |steps|
        invariant Valid() && Continues(before, run) && Keeps(who, start, Abs()) && Keeps(who, Abs(), Abs())
        invariant Abs() == AfterOthers(start, steps[..i], who)
      {
        ghost var mid, at := run, Abs();
        assert steps[..i + 1][..i] == steps[..i];
        OtherStep(steps[i], who);
        ContinuesOn(before, mid, run);
        KeepsOn(who, start, at, Abs());
      }
    }

    lemma KeepsOn(who: Who, s: State, s': State, s'': State)
      requires Keeps(who, s, s') && Keeps(who, s', s'')
      ensures Keeps(who, s, s'') && Keeps(who, s'', s'')
    {
    }

    /** Waiting for restartMutex: others go on, and whoever holds it gives it back. */
    method LockRestartMutex(steps: seq<Label>, who: Who)
      requires Valid() && Keeps(who, Abs(), Abs()) && (who.Call? ==> !HoldsLock(calls[who.t]))
      modifies this
      ensures Valid() && Continues(old(run), run) && Keeps(who, old(Abs()), Abs()) && restartMutex == None
    {
      hide IsRun, Apply, Enabled, RegistryInv;
      Others(steps, who);
      ghost var before, start := run, Abs();
      if restartMutex.Some? {
        InvNow(run);
        HolderMoves(Abs());
        var holder := restartMutex.value;
        OtherStep(Api(holder, Go), who);
        if restartMutex.Some? {
          ghost var mid, at := run, Abs();
          InvNow(run);
          HolderMoves(Abs());
          OtherStep(Api(holder, Go), who);
          ContinuesOn(before, mid, run);
        }
      }
    }

    // ----- Sections of an operation -----

    predicate At(t: Tid, pc: Pc, name: Name)
      reads this
    {
      t < |calls| && calls[t].pc == pc && calls[t].name == name
    }

    /** A call arrives. */
    method Arrive(kind: Kind, name: Name) returns (t: Tid)
      requires Valid() && kind != BootK
      modifies this
      ensures Valid() && Took(old(run), run, Spawn(kind, name))
      ensures At(t, FirstPc(kind), name) && calls[t].kind == kind
    {
      t := |calls|;
      calls := calls + [Op(kind, name, FirstPc(kind), 0, None, None)];
      Record(Spawn(kind, name));
    }

    method NoteStopRequest(t: Tid, name: Name)
      requires Valid() && At(t, Note, name) && restartMutex == None
      modifies this
      ensures Valid() && Took(old(run), run, Api(t, Go)) && calls == old(calls[t := calls[t].(pc := Look)])
    {
      stopEpochs := stopEpochs[name := (if name in stopEpochs then stopEpochs[name] else 0) + 1];
      calls := calls[t := calls[t].(pc := Look)];
      Record(Api(t, Go));
    }

    method GetRunningProcess(t: Tid, name: Name) returns (process: Option<Id>)
      requires Valid() && At(t, Look, name) && (calls[t].kind == StopK || calls[t].kind == RestartK)
      modifies this
      ensures Valid() && Took(old(run), run, Api(t, Go))
      ensures process == if name in old(runningProcesses) then Some(old(runningProcesses)[name]) else None
      ensures At(t, if process.Some? then Down else if calls[t].kind == StopK then AskArmed else Compare, name)
      ensures calls[t].kind == old(calls[t].kind) && calls[t].epoch == old(calls[t].epoch)
    {
      var here := calls[t];
      if name in runningProcesses {
        process := Some(runningProcesses[name]);
        calls := calls[t := here.(pc := Down, seen := process)];
      } else {
        process := None;
        calls := calls[t := here.(pc := if here.kind == StopK then AskArmed else Compare, seen := None)];
      }
      Record(Api(t, Go));
    }

    /** The shutdown of the incarnation found has ended, or could not be carried out. */
    method ShutDownNoRestart(t: Tid, name: Name, failed: bool)
      requires Valid() && At(t, Down, name) && (calls[t].kind == StopK || calls[t].kind == RestartK)
      modifies this
      ensures Valid() && Took(old(run), run, Api(t, if failed then Failed else Go))
      ensures At(t, AfterDown(calls[t].kind, failed), name)
      ensures calls[t].kind == old(calls[t].kind) && calls[t].epoch == old(calls[t].epoch)
    {
      calls := calls[t := calls[t].(pc := AfterDown(calls[t].kind, failed))];
      Record(Api(t, if failed then Failed else Go));
    }

    method IsArmed(t: Tid, name: Name) returns (armed: bool)
      requires Valid() && At(t, AskArmed, name)
      modifies this
      ensures Valid() && Took(old(run), run, Api(t, Go)) && armed == (name in old(watched))
      ensures At(t, if armed then Pause else AskRestart, name) && calls[t].kind == old(calls[t].kind)
    {
      armed := name in watched;
      calls := calls[t := calls[t].(pc := if armed then Pause else AskRestart)];
      Record(Api(t, Go));
    }

    method IsRestartInFlight(t: Tid, name: Name) returns (inFlight: bool)
      requires Valid() && At(t, AskRestart, name) && restartMutex == None
      modifies this
      ensures Valid() && Took(old(run), run, Api(t, Go)) && inFlight == (name in old(restartCalls))
      ensures At(t, if inFlight then Pause else Over, name) && calls[t].kind == old(calls[t].kind)
    {
      inFlight := name in restartCalls;
      calls := calls[t := calls[t].(pc := if inFlight then Pause else Over)];
      Record(Api(t, Go));
    }

    method PauseTriggers(t: Tid, name: Name)
      requires Valid() && At(t, Pause, name)
      modifies this
      ensures Valid() && Took(old(run), run, Api(t, Go)) && name !in watched
    {
      watched := watched - {name};
      calls := calls[t := calls[t].(pc := Over)];
      Record(Api(t, Go));
    }

    // ----- Stopping a process -----

    method NoteAndLookUp(name: Name, others: nat -> seq<Label>)
      returns (process: Option<Id>, t: Tid, ghost noted: nat, ghost looked: nat)
      requires Valid()
      modifies this
      ensures Valid() && Continues(old(run), run) && |old(run).labels| <= noted < looked
      ensures Did(run, noted, t, Note, name) && Did(run, looked, t, Look, name)
      ensures looked < |run.labels| && (process == None <==> NothingRuns(run.path[looked], name))
      ensures At(t, if process.Some? then Down else AskArmed, name) && calls[t].kind == StopK
    {
      hide IsRun, Apply, Enabled, Inv, Did, NothingRuns, RegistryInv;
      ghost var r0 := run;
      t := Arrive(StopK, name);
      ghost var r := run;
      LockRestartMutex(others(0), Call(t));
      ContinuesOn(r0, r, run);
      ghost var r1 := run;
      NoteStopRequest(t, name);
      noted := |r1.labels|;
      DidNow(r1, run, t, Note, name);
      ContinuesOn(r0, r1, run);
      ghost var r2 := run;
      Others(others(1), Call(t));
      ContinuesOn(r0, r2, run);
      PastStays(r2, run, noted);
      ghost var r3 := run;
      InvNow(run);
      LookedUp(Abs(), name);
      process := GetRunningProcess(t, name);
      looked := |r3.labels|;
      DidNow(r3, run, t, Look, name);
      ContinuesOn(r0, r3, run);
      PastStays(r3, run, noted);
    }

    /** The incarnation found is shut down, or its absence answered for; then the triggers are paused. */
    method FinishStop(t: Tid, name: Name, process: Option<Id>, failed: bool, others: nat -> seq<Label>)
      returns (err: StopError)
      requires Valid() && At(t, if process.Some? then Down else AskArmed, name) && calls[t].kind == StopK
      modifies this
      ensures Valid() && Continues(old(run), run)
      ensures process.Some? ==>
                && err == (if failed then ShutDownFailed else NoError)
                && exists d: nat :: |old(run).labels| <= d && Passed(run, d, t, Down, name)
      ensures process == None ==> Answer(run, t, name, err)
      ensures err != NotRunning && err != DoesNotExist ==> Disarmed(run, t, name)
    {
      hide IsRun, Apply, Enabled, Inv, Answer, Disarmed, Passed;
      ghost var r0 := run;
      Others(others(2), Call(t));
      ghost var r := run;
      ghost var d := |r.labels|;
      if process.Some? {
        ShutDownNoRestart(t, name, failed);
        PassedNow(r, run, if failed then Failed else Go, t, Down, name);
        err := if failed then ShutDownFailed else NoError;
      } else {
        err := Excused(t, name, others);
      }
      ContinuesOn(r0, r, run);
      r := run;
      if err != NotRunning && err != DoesNotExist {
        Disarm(t, name, others(5));
        ContinuesOn(r0, r, run);
      }
      if process.Some? {
        PassedStays(r, run, d, t, Down, name);
      } else {
        AnswerStays(r, run, t, name, err);
      }
    }

    method Disarm(t: Tid, name: Name, steps: seq<Label>)
      requires Valid() && At(t, Pause, name)
      modifies this
      ensures Valid() && Continues(old(run), run) && Disarmed(run, t, name)
    {
      hide IsRun, Apply, Enabled, Inv, Did;
      ghost var r0 := run;
      Others(steps, Call(t));
      ghost var r := run;
      PauseTriggers(t, name);
      DidNow(r, run, t, Pause, name);
      ContinuesOn(r0, r, run);
      assert name !in run.path[|r.labels| + 1].comp.armed;
    }

    /** Nothing runs: that is an error unless a trigger is armed or a restart in flight. */
    method Excused(t: Tid, name: Name, others: nat -> seq<Label>) returns (err: StopError)
      requires Valid() && At(t, AskArmed, name) && calls[t].kind == StopK
      modifies this
      ensures Valid() && Continues(old(run), run) && Answer(run, t, name, err)
      ensures err in {NoError, NotRunning, DoesNotExist} && (err == NoError ==> At(t, Pause, name))
    {
      hide IsRun, Apply, Enabled, Inv, Did;
      ghost var r0 := run;
      var armed := IsArmed(t, name);
      DidNow(r0, run, t, AskArmed, name);
      ghost var asked := |r0.labels|;
      if armed {
        return NoError;
      }
      ghost var r := run;
      err := AskForRestart(t, name, others(3));
      ContinuesOn(r0, r, run);
      PastStays(r, run, asked);
    }

    method AskForRestart(t: Tid, name: Name, steps: seq<Label>) returns (err: StopError)
      requires Valid() && At(t, AskRestart, name) && calls[t].kind == StopK
      modifies this
      ensures Valid() && Continues(old(run), run)
      ensures err in {NoError, NotRunning, DoesNotExist} && (err == NoError ==> At(t, Pause, name))
      ensures exists q: nat :: |old(run).labels| <= q && RestartAnswer(run, q, t, name, err)
    {
      hide IsRun, Apply, Enabled, Inv, Did;
      ghost var r0 := run;
      LockRestartMutex(steps, Call(t));
      ghost var r := run;
      var inFlight := IsRestartInFlight(t, name);
      DidNow(r, run, t, AskRestart, name);
      ContinuesOn(r0, r, run);
      err := if inFlight then NoError else if name in processes then NotRunning else DoesNotExist;
      assert RestartAnswer(run, |r.labels|, t, name, err);
    }

    /** Stopping a process, with any steps of others before every section. The stop is noted before the process is
        looked up. If the newest incarnation was unfinished then, it is shut down; if not, it is an error unless a
        trigger is armed or a restart in flight. Without such an error the triggers are paused. And from the note
        on, in every continuation of the run, no restart already under way launches the process again. */
    method StopProcess(name: Name, failed: bool, others: nat -> seq<Label>)
      returns (err: StopError, t: Tid, ghost noted: nat, ghost looked: nat)
      requires Valid()
      modifies this
      ensures Valid() && Continues(old(run), run) && |old(run).labels| <= noted < looked
      ensures Did(run, noted, t, Note, name) && Did(run, looked, t, Look, name)
      ensures Outlasts(run, noted, name)
      ensures if NothingRuns(run.path[looked], name) then Answer(run, t, name, err)
              else err == (if failed then ShutDownFailed else NoError)
                   && exists d: nat :: looked < d && Passed(run, d, t, Down, name)
      ensures err != NotRunning && err != DoesNotExist ==> Disarmed(run, t, name)
    {
      hide IsRun, Did, NothingRuns, Outlasts, Answer, Disarmed, Passed;
      ghost var r0 := run;
      var process;
      process, t, noted, looked := NoteAndLookUp(name, others);
      ghost var r := run;
      err := FinishStop(t, name, process, failed, others);
      ContinuesOn(r0, r, run);
      PastStays(r, run, noted);
      PastStays(r, run, looked);
      NoteOutlasts(run, noted, t, name);
    }

    // ----- Restarting a process -----

    /** Joining the restart that is in progress, or registering this one. */
    method JoinRestart(t: Tid, name: Name) returns (joined: bool)
      requires Valid() && At(t, Join, name) && calls[t].kind == RestartK && restartMutex == None
      modifies this
      ensures Valid() && Took(old(run), run, Api(t, Go)) && joined == (name in old(restartCalls))
      ensures At(t, if joined then Over else Sample, name) && calls[t].kind == RestartK
    {
      joined := name in restartCalls;
      restartCalls := restartCalls + {name};
      calls := calls[t := calls[t].(pc := if joined then Over else Sample)];
      Record(Api(t, Go));
    }

    method StopEpoch(t: Tid, name: Name) returns (epoch: nat)
      requires Valid() && At(t, Sample, name) && calls[t].kind == RestartK && restartMutex == None
      modifies this
      ensures Valid() && Took(old(run), run, Api(t, Go)) && epoch == Epoch(old(Abs()).co, name)
      ensures At(t, Look, name) && calls[t].kind == RestartK && calls[t].epoch == epoch
    {
      epoch := if name in stopEpochs then stopEpochs[name] else 0;
      calls := calls[t := calls[t].(pc := Look, epoch := epoch)];
      Record(Api(t, Go));
    }

    /** The epochs are compared and the configuration is looked up; restartMutex stays locked for a launch. */
    method CompareEpochs(t: Tid, name: Name, epoch: nat) returns (res: Option<RestartResult>)
      requires Valid() && At(t, Compare, name) && calls[t].kind == RestartK && calls[t].epoch == epoch
      requires restartMutex == None
      modifies this
      ensures Valid() && Took(old(run), run, Api(t, Go)) && calls[t].kind == RestartK
      ensures At(t, if res == None then Register else Cleanup, name)
      ensures res == if Epoch(old(Abs()).co, name) != epoch then Some(Dropped)
                     else if name !in old(processes) then Some(NoSuchProcess) else None
    {
      if (if name in stopEpochs then stopEpochs[name] else 0) != epoch {
        res := Some(Dropped);
      } else if name !in processes {
        res := Some(NoSuchProcess);
      } else {
        res := None;
        restartMutex := Some(t);
      }
      calls := calls[t := calls[t].(pc := if res == None then Register else Cleanup)];
      Record(Api(t, Go));
    }

    method AddRunningProcess(t: Tid, name: Name) returns (process: Id)
      requires Valid() && At(t, Register, name) && calls[t].kind == RestartK
      modifies this
      ensures Valid() && Took(old(run), run, Api(t, Go)) && process == |old(objects)|
      ensures At(t, Unlock, name) && calls[t].kind == RestartK
    {
      process := |objects|;
      objects := objects + [Incarnation(name, Alive)];
      runningProcesses := runningProcesses[name := process];
      calls := calls[t := calls[t].(pc := Unlock, launched := Some(process))];
      Record(Api(t, Go));
    }

    method UnlockRestartMutex(t: Tid, name: Name)
      requires Valid() && At(t, Unlock, name) && calls[t].kind == RestartK
      modifies this
      ensures Valid() && Took(old(run), run, Api(t, Go)) && At(t, Cleanup, name) && calls[t].kind == RestartK
    {
      restartMutex := None;
      calls := calls[t := calls[t].(pc := Cleanup)];
      Record(Api(t, Go));
    }

    /** Launching the replacement, unless a stop was noted since the epoch was sampled. */
    method LaunchUnlessStopped(t: Tid, name: Name, epoch: nat, others: nat -> seq<Label>)
      returns (res: RestartResult, ghost compared: nat, ghost added: nat)
      requires Valid() && At(t, Compare, name) && calls[t].kind == RestartK && calls[t].epoch == epoch
      modifies this
      ensures Valid() && Continues(old(run), run) && At(t, Cleanup, name) && calls[t].kind == RestartK
      ensures |old(run).labels| <= compared < |run.labels| && Did(run, compared, t, Compare, name)
      ensures res.Dropped? || res.NoSuchProcess? || res.Launched?
      ensures res.Dropped? <==> Epoch(run.path[compared].co, name) != epoch
      ensures res.NoSuchProcess? ==> name !in run.path[compared].defined
      ensures res.Launched? ==>
                && compared < added < |run.labels| && Did(run, added, t, Register, name)
                && res.process == |run.path[added].incs|
    {
      hide IsRun, Apply, Enabled, Inv, Did, Epoch;
      ghost var r0 := run;
      LockRestartMutex(others(4), Call(t));
      ghost var r1 := run;
      compared := |r1.labels|;
      var end := CompareEpochs(t, name, epoch);
      DidNow(r1, run, t, Compare, name);
      ContinuesOn(r0, r1, run);
      if end.Some? {
        return end.value, compared, compared;
      }
      ghost var r2 := run;
      res, added := LaunchLocked(t, name, others);
      ContinuesOn(r0, r2, run);
      PastStays(r2, run, compared);
    }

    /** The launch itself, under restartMutex. */
    method LaunchLocked(t: Tid, name: Name, others: nat -> seq<Label>) returns (res: RestartResult, ghost added: nat)
      requires Valid() && At(t, Register, name) && calls[t].kind == RestartK
      modifies this
      ensures Valid() && Continues(old(run), run) && At(t, Cleanup, name) && calls[t].kind == RestartK
      ensures |old(run).labels| <= added < |run.labels| && Did(run, added, t, Register, name)
      ensures res == Launched(|run.path[added].incs|)
    {
      hide IsRun, Apply, Enabled, Inv, Did;
      ghost var r0 := run;
      Others(others(5), Call(t));
      ghost var r1 := run;
      added := |r1.labels|;
      var process := AddRunningProcess(t, name);
      res := Launched(process);
      DidNow(r1, run, t, Register, name);
      ContinuesOn(r0, r1, run);
      ghost var r2 := run;
      Others(others(6), Call(t));
      ContinuesOn(r0, r2, run);
      PastStays(r2, run, added);
      ghost var r3 := run;
      UnlockRestartMutex(t, name);
      ContinuesOn(r0, r3, run);
      PastStays(r3, run, added);
    }

    method SampleEpoch(t: Tid, name: Name, steps: seq<Label>) returns (epoch: nat, ghost sampled: nat)
      requires Valid() && At(t, Sample, name) && calls[t].kind == RestartK
      modifies this
      ensures Valid() && Continues(old(run), run)
      ensures |old(run).labels| <= sampled < |run.labels| && Did(run, sampled, t, Sample, name)
      ensures run.path[sampled].ops[t].kind == RestartK && epoch == Epoch(run.path[sampled].co, name)
      ensures At(t, Look, name) && calls[t].kind == RestartK && calls[t].epoch == epoch
    {
      hide IsRun, Apply, Enabled, Inv, Did, Epoch;
      ghost var r0 := run;
      LockRestartMutex(steps, Call(t));
      ghost var r1 := run;
      sampled := |r1.labels|;
      epoch := StopEpoch(t, name);
      DidNow(r1, run, t, Sample, name);
      ContinuesOn(r0, r1, run);
    }

    /** doRestart: the epoch is sampled before the teardown and compared after it. */
    method DoRestart(t: Tid, name: Name, failed: bool, others: nat -> seq<Label>)
      returns (res: RestartResult, ghost sampled: nat, ghost compared: nat, ghost added: nat)
      requires Valid() && At(t, Sample, name) && calls[t].kind == RestartK
      modifies this
      ensures Valid() && Continues(old(run), run) && At(t, Cleanup, name) && calls[t].kind == RestartK
      ensures !res.Joined? && (res.StopFailed? ==> failed)
      ensures !res.StopFailed? ==> |old(run).labels| <= sampled && Compared(run, t, name, sampled, compared, added, res)
    {
      hide IsRun, Apply, Enabled, Inv, Did, Epoch, Compared, TornDown;
      ghost var r0 := run;
      var epoch;
      epoch, sampled := SampleEpoch(t, name, others(1));
      ghost var r2 := run;
      var down := ShutDownOld(t, name, failed, others);
      ContinuesOn(r0, r2, run);
      PastStays(r2, run, sampled);
      if !down {
        return StopFailed, sampled, sampled, sampled;
      }
      ghost var r3 := run;
      res, compared, added := LaunchUnlessStopped(t, name, epoch, others);
      ContinuesOn(r0, r3, run);
      RestartCompared(r3, run, |r2.labels|, t, name, sampled, compared, added, res);
    }

    /** The incarnation found, if any, is shut down. */
    method ShutDownOld(t: Tid, name: Name, failed: bool, others: nat -> seq<Label>) returns (down: bool)
      requires Valid() && At(t, Look, name) && calls[t].kind == RestartK
      modifies this
      ensures Valid() && Continues(old(run), run)
      ensures At(t, if down then Compare else Cleanup, name) && calls[t].kind == RestartK
      ensures calls[t].epoch == old(calls[t].epoch) && (!down ==> failed)
      ensures TornDown(run, |old(run).labels|, |run.labels|, t, name)
    {
      hide IsRun, Apply, Enabled, Inv, Did, Passed;
      ghost var r0 := run;
      Others(others(2), Call(t));
      ghost var r1 := run;
      ghost var looked := |r1.labels|;
      var process := GetRunningProcess(t, name);
      DidNow(r1, run, t, Look, name);
      ContinuesOn(r0, r1, run);
      down := true;
      if process.Some? {
        ghost var r2 := run;
        ghost var d := TearDown(t, name, failed, others(3));
        down := !failed;
        ContinuesOn(r0, r2, run);
        PastStays(r2, run, looked);
      }
    }

    method TearDown(t: Tid, name: Name, failed: bool, steps: seq<Label>) returns (ghost d: nat)
      requires Valid() && At(t, Down, name) && calls[t].kind == RestartK
      modifies this
      ensures Valid() && Continues(old(run), run)
      ensures At(t, if failed then Cleanup else Compare, name) && calls[t].kind == RestartK
      ensures calls[t].epoch == old(calls[t].epoch)
      ensures |old(run).labels| <= d < |run.labels| && Passed(run, d, t, Down, name)
    {
      hide IsRun, Apply, Enabled, Inv, Passed;
      ghost var r0 := run;
      Others(steps, Call(t));
      ghost var r := run;
      d := |r.labels|;
      ShutDownNoRestart(t, name, failed);
      PassedNow(r, run, if failed then Failed else Go, t, Down, name);
      ContinuesOn(r0, r, run);
    }

    method EndRestart(t: Tid, name: Name)
      requires Valid() && At(t, Cleanup, name) && calls[t].kind == RestartK && restartMutex == None
      modifies this
      ensures Valid() && Took(old(run), run, Api(t, Go)) && At(t, Read, name)
    {
      restartCalls := restartCalls - {name};
      calls := calls[t := calls[t].(pc := Read)];
      Record(Api(t, Go));
    }

    // ----- The completion check -----

    method CountRunning(t: Tid, name: Name) returns (count: nat)
      requires Valid() && At(t, Read, name)
      modifies this
      ensures Valid() && Took(old(run), run, Api(t, Go)) && count == |old(runningProcesses)|
      ensures At(t, if count > 0 then Over else Send, name)
    {
      count := |runningProcesses|;
      calls := calls[t := calls[t].(pc := if count > 0 then Over else Send)];
      Record(Api(t, Go));
    }

    method TryQueueZero(t: Tid, name: Name)
      requires Valid() && At(t, Send, name)
      modifies this
      ensures Valid() && Took(old(run), run, Api(t, Go))
      ensures 0 in procCompleteChannel || |old(procCompleteChannel)| >= CAP
    {
      if |procCompleteChannel| < CAP {
        procCompleteChannel := procCompleteChannel + [0];
        assert procCompleteChannel[|procCompleteChannel| - 1] == 0;
      }
      calls := calls[t := calls[t].(pc := Over)];
      Record(Api(t, Go));
    }

    /** If nothing runs when the processes are counted, a zero is queued, or the channel was full. */
    method RetriggerCompletionCheck(t: Tid, name: Name, others: nat -> seq<Label>)
      requires Valid() && At(t, Read, name)
      modifies this
      ensures Valid() && Continues(old(run), run) && Rechecked(run, |old(run).labels|, t, name)
    {
      hide IsRun, Apply, Enabled, Inv, Did;
      ghost var r0 := run;
      Others(others(8), Call(t));
      ghost var r1 := run;
      var count := CountRunning(t, name);
      ghost var read := |r1.labels|;
      DidNow(r1, run, t, Read, name);
      ContinuesOn(r0, r1, run);
      if count > 0 {
        assert run.path[read].running != map[];
        return;
      }
      ghost var r2 := run;
      ghost var sent := SendZero(t, name, others(9));
      ContinuesOn(r0, r2, run);
      PastStays(r2, run, read);
    }

    method SendZero(t: Tid, name: Name, steps: seq<Label>) returns (ghost sent: nat)
      requires Valid() && At(t, Send, name)
      modifies this
      ensures Valid() && Continues(old(run), run) && |old(run).labels| <= sent && ZeroTried(run, sent, t, name)
    {
      hide IsRun, Apply, Enabled, Inv, Did;
      ghost var r0 := run;
      Others(steps, Call(t));
      ghost var r1 := run;
      TryQueueZero(t, name);
      sent := |r1.labels|;
      DidNow(r1, run, t, Send, name);
      ContinuesOn(r0, r1, run);
    }

    method AskToRestart(name: Name, steps: seq<Label>) returns (joined: bool, t: Tid, ghost asked: nat)
      requires Valid()
      modifies this
      ensures Valid() && Continues(old(run), run)
      ensures |old(run).labels| <= asked < |run.labels| && Did(run, asked, t, Join, name)
      ensures joined <==> name in run.path[asked].co.calls
      ensures At(t, if joined then Over else Sample, name) && calls[t].kind == RestartK
    {
      hide IsRun, Apply, Enabled, Inv, Did;
      ghost var r0 := run;
      t := Arrive(RestartK, name);
      ghost var r1 := run;
      LockRestartMutex(steps, Call(t));
      ContinuesOn(r0, r1, run);
      ghost var r2 := run;
      asked := |r2.labels|;
      joined := JoinRestart(t, name);
      DidNow(r2, run, t, Join, name);
      ContinuesOn(r0, r2, run);
    }

    /** Restarting a process, with any steps of others before every section. It joins exactly if a restart of
        the process is registered. Otherwise it is dropped exactly if a stop of the process was noted between
        sampling the epoch and comparing it, and if it launches, no stop was noted up to the launch; and it
        leaves nobody waiting: the completion check is run again at its end. */
    method RestartProcess(name: Name, failed: bool, others: nat -> seq<Label>)
      returns (res: RestartResult, t: Tid, ghost asked: nat, ghost sampled: nat, ghost compared: nat, ghost added: nat)
      requires Valid()
      modifies this
      ensures Valid() && Continues(old(run), run) && |old(run).labels| <= asked && Did(run, asked, t, Join, name)
      ensures res.Joined? <==> name in run.path[asked].co.calls
      ensures res.StopFailed? ==> failed
      ensures !res.Joined? && !res.StopFailed? ==>
                asked < sampled && Compared(run, t, name, sampled, compared, added, res)
      ensures !res.Joined? ==> Rechecked(run, asked, t, name)
    {
      hide IsRun, Apply, Enabled, Inv, Did, Compared, Rechecked;
      ghost var r0 := run;
      var joined;
      joined, t, asked := AskToRestart(name, others(0));
      if joined {
        return Joined, t, asked, asked, asked, asked;
      }
      ghost var r3 := run;
      res, sampled, compared, added := DoRestart(t, name, failed, others);
      ContinuesOn(r0, r3, run);
      PastStays(r3, run, asked);
      ghost var r4 := run;
      LeaveRestart(t, name, others);
      ContinuesOn(r0, r4, run);
      PastStays(r4, run, asked);
      RecheckedEarlier(run, asked, |r4.labels|, t, name);
      if !res.StopFailed? {
        ComparedStays(r4, run, t, name, sampled, compared, added, res);
      }
    }

    method LeaveRestart(t: Tid, name: Name, others: nat -> seq<Label>)
      requires Valid() && At(t, Cleanup, name) && calls[t].kind == RestartK
      modifies this
      ensures Valid() && Continues(old(run), run) && Rechecked(run, |old(run).labels|, t, name)
    {
      hide IsRun, Apply, Enabled, Inv, Rechecked;
      ghost var r0 := run;
      LockRestartMutex(others(7), Call(t));
      ghost var r1 := run;
      EndRestart(t, name);
      ContinuesOn(r0, r1, run);
      ghost var r2 := run;
      RetriggerCompletionCheck(t, name, others);
      ContinuesOn(r0, r2, run);
      RecheckedEarlier(run, |r0.labels|, |r2.labels|, t, name);
    }

    // ----- Updates -----

    method BeginUpdate(name: Name) returns (t: Tid)
      requires Valid()
      modifies this
      ensures Valid() && Continues(old(run), run) && |run.labels| == |old(run).labels| + 2
      ensures At(t, Busy, name) && calls[t].kind == UpdateK
    {
      hide IsRun;
      t := Arrive(UpdateK, name);
      ghost var r := run;
      updatesInFlight := updatesInFlight + 1;
      calls := calls[t := calls[t].(pc := Busy)];
      Record(Api(t, Go));
      ContinuesOn(old(run), r, run);
    }

    /** The update's own work and whatever others do, in any order; then the work is brought to an end. */
    method Work(t: Tid, steps: seq<Label>, ghost from: nat)
      requires Valid() && InFlightSince(run, from, t)
      modifies this
      ensures Valid() && Continues(old(run), run) && InFlightSince(run, from, t)
      ensures t < |calls| && calls[t].pc == Busy
    {
      hide IsRun, Enabled, Apply, InFlightSince;
      ghost var r0 := run;
      for i := 0 to |steps|
        invariant Valid() && Continues(r0, run) && InFlightSince(run, from, t)
      {
        if Enabled(Abs(), steps[i]) && steps[i] != Api(t, EndUpdate) {
          ghost var r := run;
          Perform(steps[i]);
          StillInFlight(r, run, steps[i], from, t);
          ContinuesOn(r0, r, run);
        }
      }
      ghost var r := run;
      InFlightNow(run, from, t);
      BackToBusy(t, from);
      ContinuesOn(r0, r, run);
    }

    method BackToBusy(t: Tid, ghost from: nat)
      requires Valid() && InFlightSince(run, from, t) && t < |calls|
      modifies this
      ensures Valid() && Continues(old(run), run) && InFlightSince(run, from, t)
      ensures t < |calls| && calls[t].pc == Busy
    {
      hide IsRun, Enabled, Apply, InFlightSince;
      ghost var r0 := run;
      while calls[t].pc != Busy
        invariant Valid() && Continues(r0, run) && InFlightSince(run, from, t) && t < |calls|
        decreases WorkLeft(calls[t].pc)
      {
        WorkGoesOn(run, from, t);
        ghost var r := run;
        Perform(Api(t, Go));
        StillInFlight(r, run, Api(t, Go), from, t);
        ContinuesOn(r0, r, run);
      }
    }

    method FinishUpdate(t: Tid, name: Name) returns (last: bool)
      requires Valid() && At(t, Busy, name)
      modifies this
      ensures Valid() && Took(old(run), run, Api(t, EndUpdate)) && updatesInFlight == old(updatesInFlight) - 1
      ensures last <==> updatesInFlight == 0
      ensures At(t, if last then Read else Over, name)
    {
      updatesInFlight := updatesInFlight - 1;
      last := updatesInFlight == 0;
      calls := calls[t := calls[t].(pc := if last then Read else Over)];
      Record(Api(t, EndUpdate));
    }

    /** The end of an update re-runs the completion check exactly if no other update is in flight then. */
    method LeaveUpdate(t: Tid, name: Name, others: nat -> seq<Label>) returns (last: bool)
      requires Valid() && At(t, Busy, name)
      modifies this
      ensures Valid() && Continues(old(run), run) && |old(run).path| < |run.path|
      ensures last <==> Updating(run.path[|old(run).path|].ops) == {}
      ensures last ==> Rechecked(run, |old(run).path|, t, name)
    {
      hide IsRun, Enabled, Apply, Rechecked, Updating, Inv, CallsInv;
      ghost var r0 := run;
      last := FinishUpdate(t, name);
      ghost var r1 := run;
      InvNow(run);
      CountedOut(run);
      PathStays(r0, run);
      if last {
        RetriggerCompletionCheck(t, name, others);
        ContinuesOn(r0, r1, run);
      }
      PathStays(r1, run);
    }

    /** An update from its begin to its end. All that time the completion loop's look at the update counter
        finds it above zero; the end re-runs the completion check exactly if no other update is in flight. */
    method Update(name: Name, work: seq<Label>, others: nat -> seq<Label>)
      returns (last: bool, t: Tid, ghost begun: nat, ghost ended: nat)
      requires Valid()
      modifies this
      ensures Valid() && Continues(old(run), run) && |old(run).path| < begun < ended < |run.path|
      ensures forall k :: begun <= k < ended ==> run.path[k].comp.updates > 0
      ensures last <==> Updating(run.path[ended].ops) == {}
      ensures last ==> exists n :: Rechecked(run, ended, t, n)
    {
      hide IsRun, Enabled, Apply, InFlightSince, Rechecked, Updating;
      ghost var r0 := run;
      t := BeginUpdate(name);
      begun := |run.labels|;
      InFlightFrom(run, t);
      ghost var r1 := run;
      Work(t, work, begun);
      ContinuesOn(r0, r1, run);
      PathStays(r0, r1);
      PathStays(r1, run);
      InFlightCounts(run, begun, t);
      ghost var r2 := run;
      ended := |r2.path|;
      var n := calls[t].name;
      last := LeaveUpdate(t, n, others);
      ContinuesOn(r0, r2, run);
      PathStays(r2, run);
    }

    // ----- The completion loop -----

    /** What one of the loop's checks reads, and that it goes on or waits again. */
    method Check() returns (pass: bool)
      requires Valid() && LoopEnabled(Abs(), RunnerProtocol.LoopAct.Check)
      modifies this
      ensures Valid() && Took(old(run), run, Loop(RunnerProtocol.LoopAct.Check))
      ensures loop == if !pass then Select else Following(old(loop))
      ensures pass <==> Passes(old(Abs()))
    {
      pass := match loop
        case CheckRestarts => |restartCalls| == 0
        case CheckUpdates => updatesInFlight <= 0
        case CheckRunning => |runningProcesses| == 0
        case _ => |watched| == 0;
      loop := if !pass then Select else Following(loop);
      Record(Loop(RunnerProtocol.LoopAct.Check));
    }

    /** One of the loop's four checks, after whatever others do. */
    method NextCheck(steps: seq<Label>, ghost received: nat, ghost looks0: seq<nat>)
      returns (pass: bool, ghost looks: seq<nat>)
      requires Valid() && |looks0| < 4 && loop == Stage(|looks0|) && Looked(run, received, looks0)
      requires looks0 != [] ==> Passes(run.path[looks0[|looks0| - 1]])
      requires received < |run.labels|
      modifies this
      ensures Valid() && Continues(old(run), run) && received < |run.labels|
      ensures |looks| == |looks0| + 1 && Looked(run, received, looks)
      ensures pass <==> Passes(run.path[looks[|looks0|]])
      ensures loop == if pass then Stage(|looks|) else Select
    {
      hide IsRun, Enabled, Apply, Inv, Passes;
      ghost var r0 := run;
      LockRestartMutex(steps, TheLoop);
      ghost var r1 := run;
      PathStays(r0, r1);
      pass := Check();
      PathStays(r1, run);
      ContinuesOn(r0, r1, run);
      looks := looks0 + [|r1.labels|];
    }

    /** One count taken from the channel, with any steps of others between the checks. A zero leads to the
        checks, one after the other, up to the first that finds something; the project completes exactly if
        all four find nothing. */
    method HandleCount(others: nat -> seq<Label>) returns (completed: bool, ghost received: nat, ghost looks: seq<nat>)
      requires Valid() && loop == Select && |procCompleteChannel| > 0
      modifies this
      ensures Valid() && Continues(old(run), run) && received == |old(run).labels|
      ensures |looks| <= 4 && Looked(run, received, looks)
      ensures looks != [] <==> old(procCompleteChannel)[0] == 0
      ensures completed <==> |looks| == 4 && Passes(run.path[looks[3]])
      ensures !completed && looks != [] ==> !Passes(run.path[looks[|looks| - 1]])
      ensures loop == if completed then Complete else Select
    {
      hide IsRun, Enabled, Apply, Passes;
      ghost var r0 := run;
      received, looks := |run.labels|, [];
      var count := Receive();
      if count != 0 {
        return false, received, [];
      }
      ghost var r := run;
      var pass;
      pass, looks := NextCheck(others(0), received, looks);
      ContinuesOn(r0, r, run);
      if !pass {
        return false, received, looks;
      }
      r := run;
      pass, looks := NextCheck(others(1), received, looks);
      ContinuesOn(r0, r, run);
      if !pass {
        return false, received, looks;
      }
      r := run;
      pass, looks := NextCheck(others(2), received, looks);
      ContinuesOn(r0, r, run);
      if !pass {
        return false, received, looks;
      }
      r := run;
      completed, looks := NextCheck(others(3), received, looks);
      ContinuesOn(r0, r, run);
    }

    method Receive() returns (count: nat)
      requires Valid() && loop == Select && |procCompleteChannel| > 0
      modifies this
      ensures Valid() && Took(old(run), run, Loop(LoopAct.Receive))
      ensures count == old(procCompleteChannel)[0] && loop == if count == 0 then CheckRestarts else Select
    {
      count := procCompleteChannel[0];
      procCompleteChannel := procCompleteChannel[1..];
      loop := if count == 0 then CheckRestarts else Select;
      Record(Loop(LoopAct.Receive));
    }

    // ----- The end of an incarnation -----

    /** Leaving the registry: who owns its name, or finds it owned by nobody, is removed. */
    method LeaveRegistry(process: Id, name: Name, steps: seq<Label>)
      returns (count: nat, removed: bool, ghost left: nat)
      requires Valid() && process < |objects| && objects[process] == Incarnation(name, Alive)
      modifies this
      ensures Valid() && Continues(old(run), run) && left + 1 == |run.labels|
      ensures run.labels[left] == Leave(process, LeaveAct.Deregister) && left + 1 < |run.path|
      ensures Departed(run.path[left], run.path[left + 1], process, name, removed)
      ensures count == |run.path[left + 1].running|
      ensures process < |objects| && (removed ==> objects[process].fate == Reporting(count))
    {
      hide IsRun, Enabled, Apply, Inv, CountInv, RegistryInv, Departed;
      ghost var r0 := run;
      Others(steps, Process(process));
      ghost var r1 := run;
      left := |r1.labels|;
      InvNow(run);
      ghost var before := Abs();
      count, removed := RemoveRunningProcess(process, name);
      DepartedBy(before, process, removed, Abs());
      PathStays(r1, run);
      ContinuesOn(r0, r1, run);
    }

    /** The end of runProcess's goroutine. The incarnation reports exactly if it still owns its name or nobody
        does, and then it has taken nobody else from the registry; a superseded one leaves it alone. The count
        it queues is that of the processes left, unless the channel is full and it has to wait. */
    method Terminate(process: Id, name: Name, others: nat -> seq<Label>)
      returns (removed: bool, sent: bool, ghost left: nat)
      requires Valid() && process < |objects| && objects[process] == Incarnation(name, Alive)
      modifies this
      ensures Valid() && Continues(old(run), run) && left < |run.labels| && left + 1 < |run.path|
      ensures run.labels[left] == Leave(process, LeaveAct.Deregister)
      ensures Departed(run.path[left], run.path[left + 1], process, name, removed)
      ensures removed ==>
                if sent then |run.path[left + 1].running| in procCompleteChannel else |procCompleteChannel| >= CAP
    {
      hide IsRun, Enabled, Apply, Departed;
      ghost var r0 := run;
      var count;
      count, removed, left := LeaveRegistry(process, name, others(0));
      sent := false;
      if removed {
        ghost var r := run;
        sent := SendCount(process, count, others(1));
        ContinuesOn(r0, r, run);
        PathStays(r, run);
      }
    }

    /** The count is queued, or the channel is full. */
    method SendCount(process: Id, count: nat, steps: seq<Label>) returns (sent: bool)
      requires Valid() && process < |objects| && objects[process].fate == Reporting(count)
      modifies this
      ensures Valid() && Continues(old(run), run)
      ensures if sent then count in procCompleteChannel else |procCompleteChannel| >= CAP
    {
      hide IsRun, Enabled, Apply;
      ghost var r0 := run;
      Others(steps, Process(process));
      sent := |procCompleteChannel| < CAP;
      if sent {
        ghost var r := run;
        Report(process, count);
        ContinuesOn(r0, r, run);
      }
    }

    /** Only the process registered under its name is deregistered; the others learn that they are superseded. */
    method RemoveRunningProcess(process: Id, name: Name) returns (count: nat, removed: bool)
      requires Valid() && process < |objects| && objects[process] == Incarnation(name, Alive)
      modifies this
      ensures Valid() && Took(old(run), run, Leave(process, Deregister))
      ensures removed <==> name !in old(runningProcesses) || old(runningProcesses)[name] == process
      ensures count == |runningProcesses|
      ensures runningProcesses == if removed then old(runningProcesses) - {name} else old(runningProcesses)
      ensures process < |objects| && objects[process].fate == if removed then Reporting(count) else Gone
    {
      removed := true;
      if name in runningProcesses {
        removed := runningProcesses[name] == process;
      }
      if removed {
        runningProcesses := runningProcesses - {name};
      }
      count := |runningProcesses|;
      objects := objects[process := Incarnation(name, if removed then Reporting(count) else Gone)];
      Record(Leave(process, Deregister));
    }

    method Report(process: Id, count: nat)
      requires Valid() && process < |objects| && objects[process].fate == Reporting(count)
      requires |procCompleteChannel| < CAP
      modifies this
      ensures Valid() && Took(old(run), run, Leave(process, LeaveAct.Report)) && count in procCompleteChannel
    {
      procCompleteChannel := procCompleteChannel + [count];
      assert procCompleteChannel[|procCompleteChannel| - 1] == count;
      objects := objects[process := objects[process].(fate := Gone)];
      Record(Leave(process, LeaveAct.Report));
    }
  }
}

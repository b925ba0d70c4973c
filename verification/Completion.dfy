/** A project with nothing left to run completes: the completion loop never loses its last wake-up. */
module Completion {
  import opened Common
  import opened RunnerProtocol
  import opened StopRestart

  /** Everything that was launched has left, and nothing under way is expected to bring anything back. */
  predicate Quiet(s: State) {
    |s.incs| > 0 && s.running == map[] && s.co.calls == {} && s.comp.updates == 0
  }

  // ----- What can still wake the loop -----

  predicate ZeroQueued(c: Completion) {
    0 in c.queue
  }

  ghost predicate ZeroCommitted(incs: seq<Incarnation>) {
    exists i: Id :: i < |incs| && incs[i].fate == Reporting(0)
  }

  predicate Retriggering(op: Op) {
    op.pc == Read || op.pc == Send
  }

  ghost predicate RetriggerCommitted(ops: seq<Op>) {
    exists t: Tid :: t < |ops| && Retriggering(ops[t])
  }

  /** The loop has taken a zero and is checking it, or the run is over. */
  predicate LoopAwake(c: Completion) {
    c.loop != Booting && c.loop != Select
  }

  ghost predicate WakeUp(s: State) {
    ZeroQueued(s.comp) || ZeroCommitted(s.incs) || RetriggerCommitted(s.ops) || LoopAwake(s.comp)
  }

  // ----- The update counter counts the updates in flight -----

  predicate InFlight(op: Op) {
    op.kind == UpdateK && op.pc != Begin && op.pc != Read && op.pc != Send && op.pc != Over
  }

  ghost function Updating(ops: seq<Op>): set<Tid> {
    set t: Tid | t < |ops| && InFlight(ops[t])
  }

  /** Restarts between registering their call and dropping it. */
  predicate Restarting(op: Op) {
    op.kind == RestartK && op.pc != Join && op.pc != Read && op.pc != Send && op.pc != Over
  }

  ghost predicate CallsInv(calls: set<Name>, ops: seq<Op>) {
    && (forall t: Tid :: t < |ops| && Restarting(ops[t]) ==> ops[t].name in calls)
    && (forall n :: n in calls ==> exists t: Tid :: t < |ops| && Restarting(ops[t]) && ops[t].name == n)
    && (forall t: Tid, u: Tid ::
          t < |ops| && u < |ops| && Restarting(ops[t]) && Restarting(ops[u]) && ops[t].name == ops[u].name ==> t == u)
  }

  ghost predicate CountInv(s: State) {
    && s.comp.updates == |Updating(s.ops)|
    && CallsInv(s.co.calls, s.ops)
  }

  lemma UpdatingAfter(ops: seq<Op>, t: Tid, op: Op)
    requires t < |ops|
    ensures Updating(ops[t := op]) == if InFlight(op) then Updating(ops) + {t} else Updating(ops) - {t}
  {
  }

  lemma UpdatingSpawn(ops: seq<Op>, op: Op)
    requires !InFlight(op)
    ensures Updating(ops + [op]) == Updating(ops)
  {
    forall t: Tid ensures t in Updating(ops + [op]) <==> t in Updating(ops) {
    }
  }

  /** How one step of operation t moves the update counter and the restart calls. */
  predicate Books(s: State, t: Tid, s': State)
    requires t < |s.ops|
  {
    && |s'.ops| == |s.ops| && s'.ops == s.ops[t := s'.ops[t]]
    && var op, op' := s.ops[t], s'.ops[t];
       && s'.comp.updates == s.comp.updates + (if InFlight(op') then 1 else 0) - (if InFlight(op) then 1 else 0)
       && (Restarting(op) ==> op'.name == op.name)
       && (Restarting(op) == Restarting(op') ==> s'.co.calls == s.co.calls)
       && (!Restarting(op) && Restarting(op') ==>
             op'.name !in s.co.calls && s'.co.calls == s.co.calls + {op'.name})
       && (Restarting(op) && !Restarting(op') ==> s'.co.calls == s.co.calls - {op.name})
  }

  lemma CoalesceBooks(s: State, t: Tid)
    requires t < |s.ops| && KindAt(s.ops[t].kind, s.ops[t].pc)
    requires NeedsLock(s.ops[t].pc) || s.ops[t].pc == Unlock
    ensures Books(s, t, CoalesceStep(s, t))
  {
    if s.ops[t].pc == Join && s.ops[t].name in s.co.calls {
      assert s.co.calls + {s.ops[t].name} == s.co.calls;
    }
  }

  lemma RegistryBooks(s: State, t: Tid, failed: bool)
    requires t < |s.ops| && KindAt(s.ops[t].kind, s.ops[t].pc)
    requires AtRegistry(s.ops[t].pc)
    ensures Books(s, t, RegistryStep(s, t, failed))
  {
  }

  lemma CheckBooks(s: State, t: Tid, a: OpAct)
    requires OpEnabled(s, t, a) && KindAt(s.ops[t].kind, s.ops[t].pc)
    requires AtCheck(s.ops[t].pc)
    ensures Books(s, t, CheckStep(s, t, a))
  {
  }

  lemma OpBookkeeping(s: State, t: Tid, a: OpAct)
    requires t < |s.ops| && KindAt(s.ops[t].kind, s.ops[t].pc) && OpEnabled(s, t, a)
    ensures Books(s, t, OpStep(s, t, a))
  {
    hide CoalesceStep, RegistryStep, CheckStep, Books;
    var pc := s.ops[t].pc;
    if NeedsLock(pc) || pc == Unlock {
      CoalesceBooks(s, t);
    } else if AtCheck(pc) {
      CheckBooks(s, t, a);
    } else {
      RegistryBooks(s, t, a == Failed);
    }
  }

  lemma CallsAfter(calls: set<Name>, ops: seq<Op>, t: Tid, op': Op, calls': set<Name>)
    requires CallsInv(calls, ops) && t < |ops|
    requires Restarting(ops[t]) ==> op'.name == ops[t].name
    requires Restarting(ops[t]) == Restarting(op') ==> calls' == calls
    requires !Restarting(ops[t]) && Restarting(op') ==> op'.name !in calls && calls' == calls + {op'.name}
    requires Restarting(ops[t]) && !Restarting(op') ==> calls' == calls - {ops[t].name}
    ensures CallsInv(calls', ops[t := op'])
  {
    var ops' := ops[t := op'];
    forall n | n in calls'
      ensures exists u: Tid :: u < |ops'| && Restarting(ops'[u]) && ops'[u].name == n
    {
      if n == op'.name && Restarting(op') {
        assert ops'[t].name == n;
      } else {
        var u: Tid :| u < |ops| && Restarting(ops[u]) && ops[u].name == n;
        assert ops'[u] == ops[u];
      }
    }
    forall u: Tid, v: Tid |
      u < |ops'| && v < |ops'| && Restarting(ops'[u]) && Restarting(ops'[v]) && ops'[u].name == ops'[v].name
      ensures u == v
    {
      assert u != t ==> ops'[u] == ops[u];
      assert v != t ==> ops'[v] == ops[v];
    }
  }

  lemma OpKeepsCount(s: State, t: Tid, a: OpAct)
    requires Inv(s) && CountInv(s) && OpEnabled(s, t, a)
    ensures CountInv(OpStep(s, t, a))
  {
    hide RegistryInv, OpStep, CallsInv, InFlight, Restarting;
    var s' := OpStep(s, t, a);
    assert KindAt(s.ops[t].kind, s.ops[t].pc);
    OpBookkeeping(s, t, a);
    UpdatingAfter(s.ops, t, s'.ops[t]);
    assert t in Updating(s.ops) <==> InFlight(s.ops[t]);
    CallsAfter(s.co.calls, s.ops, t, s'.ops[t], s'.co.calls);
  }

  /** What holds of every reachable state. */
  ghost predicate FullInv(s: State) {
    Inv(s) && CountInv(s)
  }

  lemma SpawnKeepsCount(s: State, op: Op)
    requires CountInv(s) && !InFlight(op) && !Restarting(op)
    ensures CountInv(s.(ops := s.ops + [op]))
  {
    UpdatingSpawn(s.ops, op);
    var ops' := s.ops + [op];
    forall n | n in s.co.calls
      ensures exists u: Tid :: u < |ops'| && Restarting(ops'[u]) && ops'[u].name == n
    {
      var u: Tid :| u < |s.ops| && Restarting(s.ops[u]) && s.ops[u].name == n;
      assert ops'[u] == s.ops[u];
    }
  }

  lemma LeaveLeavesCount(s: State, id: Id, a: LeaveAct)
    requires CountInv(s) && LeaveEnabled(s, id, a)
    ensures CountInv(LeaveStep(s, id, a))
  {
    hide CallsInv, Updating;
  }

  lemma LoopLeavesCount(s: State, a: LoopAct)
    requires CountInv(s) && LoopEnabled(s, a)
    ensures CountInv(LoopStep(s, a))
  {
    hide CallsInv, Updating;
  }

  lemma NextKeepsFullInv(s: State, l: Label, s': State)
    requires FullInv(s) && Next(s, l, s')
    ensures FullInv(s')
  {
    hide Inv, CountInv, OpStep, LeaveStep, LoopStep;
    NextKeepsInv(s, l, s');
    match l
    case Leave(id, a) => LeaveLeavesCount(s, id, a);
    case Api(t, a) => OpKeepsCount(s, t, a);
    case Loop(a) => LoopLeavesCount(s, a);
    case Spawn(kind, n) => SpawnKeepsCount(s, Op(kind, n, FirstPc(kind), 0, None, None));
    case Arm(_) => ArmLeavesCount(s, s'.comp.armed);
    case Disarm(_) => ArmLeavesCount(s, s'.comp.armed);
  }

  lemma ArmLeavesCount(s: State, armed: set<Name>)
    requires CountInv(s)
    ensures CountInv(s.(comp := s.comp.(armed := armed)))
  {
  }

  lemma {:induction false} RunKeepsFullInv(path: seq<State>, labels: seq<Label>, k: nat)
    requires IsRun(path, labels) && k < |path|
    ensures FullInv(path[k])
  {
    hide Next;
    if k == 0 {
      RunKeepsInv(path, labels, 0);
      assert Updating(path[0].ops) == {};
    } else {
      RunKeepsFullInv(path, labels, k - 1);
      NextKeepsFullInv(path[k - 1], labels[k - 1], path[k]);
    }
  }

  // ----- A wake-up is always on its way -----

  /** A step that spends a wake-up for nothing: the loop finds a trigger armed and goes back to waiting,
      or a zero meets a full channel. */
  predicate Wastes(s: State, l: Label) {
    || (l == Loop(Check) && s.comp.loop == CheckTriggers && s.comp.armed != {})
    || (l.Api? && l.t < |s.ops| && s.ops[l.t].pc == Send && |s.comp.queue| >= CAP)
  }

  /** A step that calls the loop anew: the last running process deregisters, a restart drops its call,
      the last update in flight ends, or the loop is cancelled. */
  predicate CallsAgain(s: State, l: Label) {
    || l == Loop(Cancel)
    || (l.Leave? && l.leave == Deregister && l.id < |s.incs|
        && RemoveRunning(s.running, s.incs[l.id].name, l.id) == (map[], true))
    || (l.Api? && l.t < |s.ops|
        && (s.ops[l.t].pc == Cleanup || (s.ops[l.t].pc == Busy && l.act == EndUpdate && s.comp.updates == 1)))
  }

  /** Everything a wake-up depends on, other than the operations, is as it was. */
  predicate SameWake(s: State, s': State) {
    s'.incs == s.incs && s'.comp.(armed := s.comp.armed) == s.comp
  }

  lemma CheckIntoQuiet(s: State, t: Tid, a: OpAct)
    requires t < |s.ops| && KindAt(s.ops[t].kind, s.ops[t].pc) && OpEnabled(s, t, a) && s.comp.updates >= 0
    requires AtCheck(s.ops[t].pc)
    requires Quiet(CheckStep(s, t, a))
    ensures var s' := CheckStep(s, t, a);
            || Retriggering(s'.ops[t])
            || (s.ops[t].pc == Send && (0 in s'.comp.queue || Wastes(s, Api(t, a))))
            || (Quiet(s) && !Retriggering(s.ops[t]) && SameWake(s, s'))
  {
    if s.ops[t].pc == Send && |s.comp.queue| < CAP {
      assert CheckStep(s, t, a).comp.queue[|s.comp.queue|] == 0;
    }
  }

  lemma LaunchesAreNotQuiet(s: State, t: Tid, a: OpAct)
    requires OpEnabled(s, t, a) && (s.ops[t].pc == Register || s.ops[t].pc == Join)
    ensures !Quiet(OpStep(s, t, a))
  {
    var s' := OpStep(s, t, a);
    assert s.ops[t].name in s'.running || s.ops[t].name in s'.co.calls;
  }

  /** A step of an operation that leads to a quiet state either leaves that operation re-triggering the
      check, or has just tried to send, or changes nothing a wake-up depends on. */
  lemma OpIntoQuiet(s: State, t: Tid, a: OpAct)
    requires t < |s.ops| && KindAt(s.ops[t].kind, s.ops[t].pc) && OpEnabled(s, t, a) && s.comp.updates >= 0
    requires Quiet(OpStep(s, t, a))
    ensures var s' := OpStep(s, t, a);
            || Retriggering(s'.ops[t])
            || (s.ops[t].pc == Send && (0 in s'.comp.queue || Wastes(s, Api(t, a))))
            || (Quiet(s) && !Retriggering(s.ops[t]) && SameWake(s, s'))
  {
    hide CheckStep, TrySend, Wastes;
    var s', pc := OpStep(s, t, a), s.ops[t].pc;
    if AtCheck(pc) {
      CheckIntoQuiet(s, t, a);
    } else if pc == Register || pc == Join {
      LaunchesAreNotQuiet(s, t, a);
    }
  }

  /** An operation falls silent in a quiet project only by wasting its zero. */
  lemma OpLosesWake(s: State, t: Tid, a: OpAct)
    requires FullInv(s) && OpEnabled(s, t, a) && Quiet(OpStep(s, t, a))
    ensures WakeUp(OpStep(s, t, a)) || Wastes(s, Api(t, a)) || (Quiet(s) && !WakeUp(s))
  {
    hide RegistryInv, CallsInv, OpStep, Quiet, Wastes;
    var s' := OpStep(s, t, a);
    assert KindAt(s.ops[t].kind, s.ops[t].pc);
    OpBookkeeping(s, t, a);
    OpIntoQuiet(s, t, a);
    if Quiet(s) && !Retriggering(s.ops[t]) && RetriggerCommitted(s.ops) {
      var u: Tid :| u < |s.ops| && Retriggering(s.ops[u]);
      assert s'.ops[u] == s.ops[u];
    }
  }

  lemma LeaveLosesWake(s: State, id: Id, a: LeaveAct)
    requires LeaveEnabled(s, id, a) && Quiet(LeaveStep(s, id, a))
    ensures WakeUp(LeaveStep(s, id, a)) || (Quiet(s) && !WakeUp(s))
  {
    var s' := LeaveStep(s, id, a);
    if a.Deregister? {
      assert s'.incs[id].fate == Reporting(0);
    } else if s.incs[id].fate.count == 0 {
      assert s'.comp.queue[|s.comp.queue|] == 0;
    } else if ZeroQueued(s.comp) {
      var k :| 0 <= k < |s.comp.queue| && s.comp.queue[k] == 0;
      assert s'.comp.queue[k] == 0;
    } else if ZeroCommitted(s.incs) {
      var i: Id :| i < |s.incs| && s.incs[i].fate == Reporting(0);
      assert s'.incs[i].fate == Reporting(0);
    }
  }

  lemma LoopLosesWake(s: State, a: LoopAct)
    requires LoopEnabled(s, a) && Quiet(LoopStep(s, a))
    ensures WakeUp(LoopStep(s, a)) || Wastes(s, Loop(a)) || (Quiet(s) && !WakeUp(s))
  {
  }

  lemma SpawnKeepsWake(s: State, op: Op)
    requires WakeUp(s)
    ensures WakeUp(s.(ops := s.ops + [op]))
  {
    if RetriggerCommitted(s.ops) {
      var u: Tid :| u < |s.ops| && Retriggering(s.ops[u]);
      assert (s.ops + [op])[u] == s.ops[u];
    }
  }

  /** A quiet project is without a wake-up only after a wasted one, or if it was so before. */
  lemma NextLosesWake(s: State, l: Label, s': State)
    requires FullInv(s) && Next(s, l, s') && Quiet(s')
    ensures WakeUp(s') || Wastes(s, l) || (Quiet(s) && !WakeUp(s))
  {
    hide FullInv, OpStep, LeaveStep, LoopStep, Wastes, WakeUp;
    match l
    case Leave(id, a) => LeaveLosesWake(s, id, a);
    case Api(t, a) => OpLosesWake(s, t, a);
    case Loop(a) => LoopLosesWake(s, a);
    case Spawn(kind, n) =>
      if WakeUp(s) {
        SpawnKeepsWake(s, Op(kind, n, FirstPc(kind), 0, None, None));
      }
    case Arm(_) => ArmLeavesWake(s, s'.comp.armed);
    case Disarm(_) => ArmLeavesWake(s, s'.comp.armed);
  }

  lemma ArmLeavesWake(s: State, armed: set<Name>)
    ensures WakeUp(s.(comp := s.comp.(armed := armed))) == WakeUp(s)
  {
  }

  // ----- The converse: what is wasted stays wasted until the loop is called again -----

  lemma CallingWakes(s: State, l: Label, s': State)
    requires Next(s, l, s') && CallsAgain(s, l)
    ensures WakeUp(s')
  {
    if l.Leave? {
      assert s'.incs[l.id].fate == Reporting(0);
    } else if l.Api? {
      assert Retriggering(s'.ops[l.t]);
    }
  }

  lemma LeaveStaysSilent(s: State, id: Id, a: LeaveAct)
    requires LeaveEnabled(s, id, a) && !WakeUp(s) && !CallsAgain(s, Leave(id, a))
    ensures !WakeUp(LeaveStep(s, id, a))
  {
    var s' := LeaveStep(s, id, a);
    if a.Deregister? {
      assert s'.incs[id].fate != Reporting(0);
    } else {
      assert s.incs[id].fate.count != 0;
    }
  }

  /** What a wake-up depends on, other than operation t, is as it was but for an incarnation just launched. */
  ghost predicate AtMostLaunches(s: State, s': State) {
    && s'.comp.queue == s.comp.queue && s'.comp.loop == s.comp.loop
    && (s'.incs == s.incs || exists n :: s'.incs == s.incs + [Incarnation(n, Alive)])
  }

  lemma CoalesceSilences(s: State, t: Tid)
    requires t < |s.ops| && (NeedsLock(s.ops[t].pc) || s.ops[t].pc == Unlock) && s.ops[t].pc != Cleanup
    ensures AtMostLaunches(s, CoalesceStep(s, t)) && !Retriggering(CoalesceStep(s, t).ops[t])
  {
  }

  lemma RegistrySilences(s: State, t: Tid, failed: bool)
    requires t < |s.ops|
    requires AtRegistry(s.ops[t].pc)
    ensures AtMostLaunches(s, RegistryStep(s, t, failed)) && !Retriggering(RegistryStep(s, t, failed).ops[t])
  {
  }

  lemma CheckSilences(s: State, t: Tid, a: OpAct)
    requires OpEnabled(s, t, a) && !Retriggering(s.ops[t]) && !CallsAgain(s, Api(t, a))
    requires AtCheck(s.ops[t].pc)
    ensures AtMostLaunches(s, CheckStep(s, t, a)) && !Retriggering(CheckStep(s, t, a).ops[t])
  {
  }

  lemma OpSilences(s: State, t: Tid, a: OpAct)
    requires OpEnabled(s, t, a) && !Retriggering(s.ops[t]) && !CallsAgain(s, Api(t, a))
    requires KindAt(s.ops[t].kind, s.ops[t].pc)
    ensures AtMostLaunches(s, OpStep(s, t, a)) && !Retriggering(OpStep(s, t, a).ops[t])
  {
    hide CoalesceStep, RegistryStep, CheckStep, AtMostLaunches;
    var pc := s.ops[t].pc;
    if NeedsLock(pc) || pc == Unlock {
      CoalesceSilences(s, t);
    } else if AtCheck(pc) {
      CheckSilences(s, t, a);
    } else {
      RegistrySilences(s, t, a == Failed);
    }
  }

  lemma OpMovesItself(s: State, t: Tid, a: OpAct)
    requires OpEnabled(s, t, a) && KindAt(s.ops[t].kind, s.ops[t].pc)
    ensures |OpStep(s, t, a).ops| == |s.ops|
    ensures forall u: Tid :: u < |s.ops| && u != t ==> OpStep(s, t, a).ops[u] == s.ops[u]
  {
    hide OpStep;
    OpBookkeeping(s, t, a);
  }

  lemma OpStaysSilent(s: State, t: Tid, a: OpAct)
    requires OpEnabled(s, t, a) && !WakeUp(s) && !CallsAgain(s, Api(t, a))
    requires KindAt(s.ops[t].kind, s.ops[t].pc)
    ensures !WakeUp(OpStep(s, t, a))
  {
    var s' := OpStep(s, t, a);
    hide OpStep, CallsAgain, Books;
    OpSilences(s, t, a);
    OpMovesItself(s, t, a);
    forall i: Id | i < |s'.incs| ensures s'.incs[i].fate != Reporting(0) {
      if i < |s.incs| {
        assert s'.incs[i] == s.incs[i];
      }
    }
    forall u: Tid | u < |s'.ops| ensures !Retriggering(s'.ops[u]) {
      if u != t {
        assert s'.ops[u] == s.ops[u];
      }
    }
  }

  lemma StaysSilent(s: State, l: Label, s': State)
    requires FullInv(s) && Next(s, l, s') && !WakeUp(s) && !CallsAgain(s, l)
    ensures !WakeUp(s')
  {
    hide OpStep, LeaveStep, RegistryInv, CountInv;
    if l.Leave? {
      LeaveStaysSilent(s, l.id, l.leave);
    } else if l.Api? {
      assert KindAt(s.ops[l.t].kind, s.ops[l.t].pc);
      OpStaysSilent(s, l.t, l.act);
    } else if l.Spawn? {
      assert !Retriggering(Op(l.kind, l.name, FirstPc(l.kind), 0, None, None));
    }
  }

  /** The steps after j and before k do not call the loop. */
  ghost predicate NobodyCalls(path: seq<State>, labels: seq<Label>, j: nat, k: nat)
    requires |labels| < |path| && k <= |labels|
  {
    forall i :: j < i < k ==> !CallsAgain(path[i], labels[i])
  }

  /** Before step k a wake-up was wasted with no other left, and the loop has not been called since. */
  ghost predicate Unheard(path: seq<State>, labels: seq<Label>, k: nat)
    requires |labels| < |path| && k <= |labels|
  {
    exists j: nat ::
      j < k && Wastes(path[j], labels[j]) && !WakeUp(path[j + 1]) && NobodyCalls(path, labels, j, k)
  }

  lemma UnheardMore(path: seq<State>, labels: seq<Label>, k: nat)
    requires |labels| < |path| && k < |labels| && !CallsAgain(path[k], labels[k]) && Unheard(path, labels, k)
    ensures Unheard(path, labels, k + 1)
  {
    hide Wastes, WakeUp, CallsAgain;
    var j: nat :|
      j < k && Wastes(path[j], labels[j]) && !WakeUp(path[j + 1]) && NobodyCalls(path, labels, j, k);
    assert NobodyCalls(path, labels, j, k + 1);
  }

  lemma SilentStep(path: seq<State>, labels: seq<Label>, k: nat)
    requires k < |labels| < |path| && FullInv(path[k]) && Next(path[k], labels[k], path[k + 1])
    requires Quiet(path[k + 1]) && !WakeUp(path[k + 1])
    ensures Wastes(path[k], labels[k]) ==> Unheard(path, labels, k + 1)
    ensures !Wastes(path[k], labels[k]) ==> Quiet(path[k]) && !WakeUp(path[k]) && !CallsAgain(path[k], labels[k])
  {
    hide Wastes, WakeUp, FullInv, Next, CallsAgain;
    NextLosesWake(path[k], labels[k], path[k + 1]);
    if CallsAgain(path[k], labels[k]) {
      CallingWakes(path[k], labels[k], path[k + 1]);
    }
    assert NobodyCalls(path, labels, k, k + 1);
  }

  lemma {:induction false} SilentIsUnheard(path: seq<State>, labels: seq<Label>, k: nat)
    requires IsRun(path, labels) && k < |path| && Quiet(path[k]) && !WakeUp(path[k])
    ensures Unheard(path, labels, k)
  {
    hide Wastes, WakeUp, FullInv, Next, CallsAgain, Unheard;
    if k > 0 {
      RunKeepsFullInv(path, labels, k - 1);
      SilentStep(path, labels, k - 1);
      if !Wastes(path[k - 1], labels[k - 1]) {
        SilentIsUnheard(path, labels, k - 1);
        UnheardMore(path, labels, k - 1);
      }
    }
  }

  lemma {:induction false} UnheardIsSilent(path: seq<State>, labels: seq<Label>, j: nat, k: nat)
    requires IsRun(path, labels) && j < k < |path| && !WakeUp(path[j + 1])
    requires NobodyCalls(path, labels, j, k)
    ensures !WakeUp(path[k])
    decreases k
  {
    hide Next, WakeUp, FullInv, CallsAgain;
    if j + 1 < k {
      UnheardIsSilent(path, labels, j, k - 1);
      RunKeepsFullInv(path, labels, k - 1);
      assert !CallsAgain(path[k - 1], labels[k - 1]);
      StaysSilent(path[k - 1], labels[k - 1], path[k]);
    }
  }

  /** No lost completion, exactly. Take any state of any run in which nothing is left to run and nothing
      under way is expected to bring a process back. A zero count is queued, an incarnation or an operation
      is committed to sending one, or the loop is past receiving it - unless, and only unless, the last
      wake-up was spent on an armed trigger or dropped on a full channel, and since then no last process
      has deregistered, no restart and no last update has ended, and nobody has cancelled the loop. */
  lemma NoLostCompletion(path: seq<State>, labels: seq<Label>, k: nat)
    requires IsRun(path, labels) && k < |path| && Quiet(path[k])
    ensures WakeUp(path[k]) <==> !Unheard(path, labels, k)
  {
    hide Wastes, WakeUp, CallsAgain;
    if Unheard(path, labels, k) {
      var j: nat :|
        j < k && Wastes(path[j], labels[j]) && !WakeUp(path[j + 1]) && NobodyCalls(path, labels, j, k);
      UnheardIsSilent(path, labels, j, k);
    } else if !WakeUp(path[k]) {
      SilentIsUnheard(path, labels, k);
    }
  }

  // ----- Safety of completion -----

  ghost predicate NoUpdate(s: State) {
    Updating(s.ops) == {}
  }

  lemma OthersLeaveLoop(s: State, l: Label, s': State)
    requires Next(s, l, s') && !l.Loop?
    ensures s'.comp.loop == s.comp.loop
  {
  }

  /** A check that lets the loop go on has seen what it checks for. */
  lemma LoopSees(s: State, l: Label, s': State)
    requires CountInv(s) && Next(s, l, s') && l.Loop?
    ensures s'.comp.loop == CheckUpdates ==> s.comp.loop == CheckRestarts && s.co.calls == {}
    ensures s'.comp.loop == CheckRunning ==> s.comp.loop == CheckUpdates && NoUpdate(s)
    ensures s'.comp.loop == CheckTriggers ==> s.comp.loop == CheckRunning && s.running == map[]
    ensures s'.comp.loop == Complete ==> s.comp.loop == CheckTriggers && s.comp.armed == {}
  {
  }

  /** Where the loop has come to by step k says what its checks saw, and in which order. */
  ghost predicate Saw(path: seq<State>, k: nat, a: nat, b: nat, c: nat, d: nat)
    requires k < |path|
  {
    && (path[k].comp.loop == CheckUpdates ==> a < k && path[a].co.calls == {})
    && (path[k].comp.loop == CheckRunning ==> a < b < k && path[a].co.calls == {} && NoUpdate(path[b]))
    && (path[k].comp.loop == CheckTriggers ==>
          a < b < c < k && path[a].co.calls == {} && NoUpdate(path[b]) && path[c].running == map[])
    && (path[k].comp.loop == Complete ==>
          a < b < c < d < k && path[a].co.calls == {} && NoUpdate(path[b]) && path[c].running == map[]
          && path[d].comp.armed == {})
  }

  lemma SawMore(path: seq<State>, l: Label, k: nat, a: nat, b: nat, c: nat, d: nat)
    returns (a': nat, b': nat, c': nat, d': nat)
    requires k + 1 < |path| && Next(path[k], l, path[k + 1]) && CountInv(path[k]) && Saw(path, k, a, b, c, d)
    ensures Saw(path, k + 1, a', b', c', d')
  {
    a', b', c', d' := a, b, c, d;
    if l.Loop? {
      LoopSees(path[k], l, path[k + 1]);
      hide Next, CountInv, NoUpdate;
      match path[k + 1].comp.loop
      case CheckUpdates => a' := k;
      case CheckRunning => b' := k;
      case CheckTriggers => c' := k;
      case Complete => d' := k;
      case _ =>
    } else {
      OthersLeaveLoop(path[k], l, path[k + 1]);
    }
  }

  lemma {:induction false} ChecksSaw(path: seq<State>, labels: seq<Label>, k: nat)
    returns (a: nat, b: nat, c: nat, d: nat)
    requires IsRun(path, labels) && k < |path|
    ensures Saw(path, k, a, b, c, d)
  {
    hide Next, CountInv;
    if k == 0 {
      a, b, c, d := 0, 0, 0, 0;
    } else {
      a, b, c, d := ChecksSaw(path, labels, k - 1);
      hide Saw;
      RunKeepsFullInv(path, labels, k - 1);
      a, b, c, d := SawMore(path, labels[k - 1], k - 1, a, b, c, d);
    }
  }

  /** The loop completes the project only after it has seen, in this order, no restart registered, no update in
      flight, nothing running and nothing armed: a stale zero alone never completes a project. */
  lemma CompletesOnlyOnQuietChecks(path: seq<State>, labels: seq<Label>, k: nat)
    requires IsRun(path, labels) && k < |path| && path[k].comp.loop == Complete
    ensures exists a: nat, b: nat, c: nat, d: nat :: a < b < c < d < k
              && path[a].co.calls == {} && NoUpdate(path[b]) && path[c].running == map[] && path[d].comp.armed == {}
  {
    var a, b, c, d := ChecksSaw(path, labels, k);
  }
}

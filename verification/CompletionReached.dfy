/** What the wake-up is worth: a quiet project can always still complete, and where the guarantee ends. */
module CompletionReached {
  import opened Common
  import opened RunnerProtocol
  import opened StopRestart
  import opened Completion

  /** The state after taking the steps `ls` one by one, if each of them is enabled in turn. */
  function After(s: State, ls: seq<Label>): Option<State>
    decreases |ls|
  {
    if ls == [] then Some(s)
    else if Enabled(s, ls[0]) then After(Apply(s, ls[0]), ls[1..])
    else None
  }

  lemma {:induction false} AfterConcat(s: State, ls: seq<Label>, ms: seq<Label>)
    requires After(s, ls).Some?
    ensures After(s, ls + ms) == After(After(s, ls).value, ms)
    decreases |ls|
  {
    hide Apply, Enabled;
    if ls == [] {
      assert ls + ms == ms;
    } else {
      AfterConcat(Apply(s, ls[0]), ls[1..], ms);
      assert (ls + ms)[1..] == ls[1..] + ms;
    }
  }

  lemma AfterStep(s: State, l: Label, ms: seq<Label>)
    requires Enabled(s, l)
    ensures After(s, [l] + ms) == After(Apply(s, l), ms)
  {
    assert ([l] + ms)[1..] == ms;
  }

  /** Steps of goroutines that already exist: no new API call, no watch armed or disarmed. */
  predicate Committed(l: Label) {
    l.Leave? || l.Api? || l.Loop?
  }

  ghost predicate AllCommitted(ls: seq<Label>) {
    forall k :: 0 <= k < |ls| ==> Committed(ls[k])
  }

  /** A quiet project with restartMutex free and no trigger armed, whose loop is still running. */
  ghost predicate Settling(s: State) {
    Quiet(s) && s.co.lock == None && s.comp.armed == {} && s.comp.loop != Cancelled
  }

  function CheckRank(loop: LoopPc): nat {
    match loop
    case CheckRestarts => 4
    case CheckUpdates => 3
    case CheckRunning => 2
    case CheckTriggers => 1
    case Booting => 1
    case _ => 0
  }

  function Distance(c: Comp): nat {
    if LoopAwake(c) then 0 else if ZeroQueued(c) then 1 else 2
  }

  type Comp = RunnerProtocol.Completion

  /** One step, or two for a re-trigger, that brings a settling project closer to completion. */
  lemma Closer(s: State) returns (ls: seq<Label>)
    requires Settling(s) && WakeUp(s) && s.comp.loop != Complete
    ensures AllCommitted(ls) && After(s, ls).Some?
    ensures var s' := After(s, ls).value;
            && Settling(s') && WakeUp(s')
            && (Distance(s'.comp) < Distance(s.comp)
                || (Distance(s'.comp) == Distance(s.comp)
                    && |s'.comp.queue| + CheckRank(s'.comp.loop) < |s.comp.queue| + CheckRank(s.comp.loop)))
  {
    if s.comp.loop == Booting {
      ls := [Loop(Open)];
      assert After(s, ls) == After(Apply(s, ls[0]), []);
    } else if LoopAwake(s.comp) {
      ls := [Loop(Check)];
      assert After(s, ls) == After(Apply(s, ls[0]), []);
    } else if |s.comp.queue| > 0 {
      ls := [Loop(Receive)];
      assert After(s, ls) == After(Apply(s, ls[0]), []);
    } else if ZeroCommitted(s.incs) {
      var i: Id :| i < |s.incs| && s.incs[i].fate == Reporting(0);
      ls := [Leave(i, Report)];
      assert After(s, ls) == After(Apply(s, ls[0]), []);
      assert Apply(s, ls[0]).comp.queue == [0];
    } else {
      var t: Tid :| t < |s.ops| && Retriggering(s.ops[t]);
      ls := Resend(s, t);
    }
  }

  lemma Resend(s: State, t: Tid) returns (ls: seq<Label>)
    requires Settling(s) && s.comp.loop == Select && s.comp.queue == [] && t < |s.ops| && Retriggering(s.ops[t])
    ensures AllCommitted(ls) && After(s, ls).Some?
    ensures var s' := After(s, ls).value; Settling(s') && s'.comp.loop == Select && s'.comp.queue == [0]
    decreases s.ops[t].pc == Read
  {
    if s.ops[t].pc == Send {
      ls := [Api(t, Go)];
      assert After(s, ls) == After(Apply(s, ls[0]), []);
    } else {
      var mid := Apply(s, Api(t, Go));
      assert mid.ops[t].pc == Send && Settling(mid);
      ls := Resend(mid, t);
      AfterStep(s, Api(t, Go), ls);
      ls := [Api(t, Go)] + ls;
    }
  }

  lemma {:induction false} Settles(s: State) returns (ls: seq<Label>)
    requires Settling(s) && WakeUp(s)
    ensures AllCommitted(ls) && After(s, ls).Some? && After(s, ls).value.comp.loop == Complete
    decreases Distance(s.comp), |s.comp.queue| + CheckRank(s.comp.loop)
  {
    if s.comp.loop == Complete {
      ls := [];
    } else {
      var first := Closer(s);
      var rest := Settles(After(s, first).value);
      AfterConcat(s, first, rest);
      ls := first + rest;
    }
  }

  /** restartMutex is held across a launch only, and a launching restart has its call registered. */
  lemma QuietLeavesLockFree(s: State)
    requires FullInv(s) && Quiet(s)
    ensures s.co.lock == None
  {
    if s.co.lock.Some? {
      var t := s.co.lock.value;
      assert HoldsLock(s.ops[t]) ==> Restarting(s.ops[t]);
    }
  }

  /** From every reachable quiet state with no trigger armed the project can still complete by steps of
      goroutines that exist already, unless the last wake-up was wasted and the loop not called since,
      or the loop was cancelled. */
  lemma QuietProjectCompletes(path: seq<State>, labels: seq<Label>, k: nat) returns (ls: seq<Label>)
    requires IsRun(path, labels) && k < |path|
    requires Quiet(path[k]) && !Unheard(path, labels, k)
    requires path[k].comp.armed == {} && path[k].comp.loop != Cancelled
    ensures AllCommitted(ls) && After(path[k], ls).Some? && After(path[k], ls).value.comp.loop == Complete
  {
    RunKeepsFullInv(path, labels, k);
    NoLostCompletion(path, labels, k);
    QuietLeavesLockFree(path[k]);
    ls := Settles(path[k]);
  }

  // ----- Where the guarantee ends -----

  /** Once its last wake-up was wasted, a project completes only after somebody calls the loop again. */
  lemma UnheardNeedsACall(path: seq<State>, labels: seq<Label>, k: nat, m: nat)
    requires IsRun(path, labels) && k <= m < |path| && Unheard(path, labels, k) && path[m].comp.loop == Complete
    ensures exists i :: k <= i < m && CallsAgain(path[i], labels[i])
  {
    hide Wastes, CallsAgain, Next;
    var j: nat :|
      j < k && Wastes(path[j], labels[j]) && !WakeUp(path[j + 1]) && NobodyCalls(path, labels, j, k);
    if forall i :: k <= i < m ==> !CallsAgain(path[i], labels[i]) {
      assert NobodyCalls(path, labels, j, m);
      UnheardIsSilent(path, labels, j, m);
    }
  }

  /** Nothing under way can wake the loop: it is waiting, every goroutine is finished, no zero is queued. */
  ghost predicate Silent(s: State) {
    && (s.comp.loop == Select || s.comp.loop == Cancelled) && 0 !in s.comp.queue
    && (forall i: Id :: i < |s.incs| ==> s.incs[i].fate.Gone?)
    && (forall t: Tid :: t < |s.ops| ==> s.ops[t].pc == Over)
  }

  /** A silent project never completes by itself. */
  lemma {:induction false} SilentNeverCompletes(s: State, ls: seq<Label>)
    requires Silent(s) && AllCommitted(ls) && After(s, ls).Some?
    ensures Silent(After(s, ls).value)
    decreases |ls|
  {
    if ls != [] {
      assert Committed(ls[0]);
      SilentNeverCompletes(Apply(s, ls[0]), ls[1..]);
    }
  }
}

/** The two ways a quiet project can be left without a wake-up, each shown by a run of the protocol. */
module CompletionLimits {
  import opened Common
  import opened RunnerProtocol
  import opened Completion
  import opened CompletionReached

  const NOT_STARTED := RunnerProtocol.Completion(Booting, [], 0, {})

  function Project(running: map<Name, Id>, comp: Comp, incs: seq<Incarnation>, ops: seq<Op>): State {
    State(running, {}, Coalescing({}, map[], None), comp, incs, ops)
  }

  /** A boot launch that has registered incarnation id of n. */
  function Booted(n: Name, id: Id): Op {
    Op(BootK, n, Over, 0, None, Some(id))
  }

  lemma Then(s: State, ls: seq<Label>, mid: State, ms: seq<Label>, next: State) returns (all: seq<Label>)
    requires After(s, ls) == Some(mid) && After(mid, ms) == Some(next)
    ensures After(s, all) == Some(next)
  {
    AfterConcat(s, ls, ms);
    all := ls + ms;
  }

  lemma One(s: State, l: Label)
    requires Enabled(s, l)
    ensures After(s, [l]) == Some(Apply(s, l))
  {
    assert After(s, [l]) == After(Apply(s, l), []);
  }

  lemma Two(s: State, l: Label, m: Label)
    requires Enabled(s, l) && Enabled(Apply(s, l), m)
    ensures After(s, [l, m]) == Some(Apply(Apply(s, l), m))
  {
    assert [l, m] == [l] + [m];
    AfterStep(s, l, [m]);
    One(Apply(s, l), m);
  }

  function OneMoreLaunched(s: State, n: Name): State {
    s.(running := s.running[n := |s.incs|], incs := s.incs + [Incarnation(n, Alive)],
       ops := s.ops + [Booted(n, |s.incs|)])
  }

  lemma BootLaunches(s: State, n: Name) returns (ls: seq<Label>)
    requires s.comp.loop == Booting
    ensures After(s, ls) == Some(OneMoreLaunched(s, n))
  {
    ls := [Spawn(BootK, n), Api(|s.ops|, Go)];
    Two(s, ls[0], ls[1]);
    var op := Op(BootK, n, Register, 0, None, None);
    assert (s.ops + [op])[|s.ops| := Booted(n, |s.incs|)] == s.ops + [Booted(n, |s.incs|)];
  }

  /** The last running incarnation leaves and its zero reaches the loop. */
  lemma LastOneLeaves(s: State, id: Id) returns (ls: seq<Label>)
    requires id < |s.incs| && s.incs[id].fate.Alive? && s.running == map[s.incs[id].name := id]
    requires s.comp.loop == Select && s.comp.queue == []
    ensures After(s, ls) ==
            Some(s.(running := map[], comp := s.comp.(loop := CheckRestarts),
                    incs := s.incs[id := s.incs[id].(fate := Gone)]))
  {
    var s1 := Apply(s, Leave(id, Deregister));
    assert s1 == s.(running := map[], incs := s.incs[id := s.incs[id].(fate := Reporting(0))]);
    var s2 := Apply(s1, Leave(id, Report));
    assert s2 == s.(running := map[], comp := s.comp.(queue := [0]), incs := s.incs[id := s.incs[id].(fate := Gone)]);
    Two(s, Leave(id, Deregister), Leave(id, Report));
    One(s2, Loop(Receive));
    assert Apply(s2, Loop(Receive)).comp == s.comp.(loop := CheckRestarts);
    ls := Then(s, [Leave(id, Deregister), Leave(id, Report)], s2, [Loop(Receive)], Apply(s2, Loop(Receive)));
  }

  // ----- A trigger disarmed with nothing running -----

  /** All four checks pass except that a trigger is armed. */
  lemma ChecksMeetArmedTrigger(s: State) returns (ls: seq<Label>)
    requires s.comp.loop == CheckRestarts && s.co.lock == None && s.co.calls == {} && s.comp.updates == 0
    requires s.running == map[] && s.comp.armed != {}
    ensures After(s, ls) == Some(s.(comp := s.comp.(loop := Select)))
  {
    var s1 := s.(comp := s.comp.(loop := CheckUpdates));
    var s2 := s.(comp := s.comp.(loop := CheckRunning));
    var s3 := s.(comp := s.comp.(loop := CheckTriggers));
    Two(s, Loop(Check), Loop(Check));
    Two(s2, Loop(Check), Loop(Check));
    assert After(s, [Loop(Check), Loop(Check)]) == Some(s2);
    ls := Then(s, [Loop(Check), Loop(Check)], s2, [Loop(Check), Loop(Check)],
               s.(comp := s.comp.(loop := Select)));
  }

  lemma StopNotes(s: State, n: Name)
    requires s.co.lock == None
    ensures After(s, [Spawn(StopK, n), Api(|s.ops|, Go)]) ==
            Some(s.(co := s.co.(epochs := s.co.epochs[n := Epoch(s.co, n) + 1]),
                    ops := s.ops + [Op(StopK, n, Look, 0, None, None)]))
  {
    var op := Op(StopK, n, Note, 0, None, None);
    var s1 := s.(ops := s.ops + [op]);
    var s2 := s.(co := s.co.(epochs := s.co.epochs[n := Epoch(s.co, n) + 1]), ops := s.ops + [op.(pc := Look)]);
    assert Apply(s, Spawn(StopK, n)) == s1;
    assert Apply(s1, Api(|s.ops|, Go)) == s2;
    hide Apply;
    Two(s, Spawn(StopK, n), Api(|s.ops|, Go));
  }

  /** What the stop does once it has noted its request: it finds nothing running, asks whether n is armed, and
      disarms it. `at` is the state with the stop at the place given. */
  lemma StopMoves(s: State, ops: seq<Op>, n: Name, at: Pc, next: Pc)
    requires s.running == map[] && n in s.comp.armed && s.ops == ops + [Op(StopK, n, at, 0, None, None)]
    requires (at == Look && next == AskArmed) || (at == AskArmed && next == Pause)
    ensures Enabled(s, Api(|ops|, Go))
    ensures Apply(s, Api(|ops|, Go)) == s.(ops := ops + [Op(StopK, n, next, 0, None, None)])
  {
  }

  lemma StopPauses(s: State, ops: seq<Op>, n: Name)
    requires s.running == map[] && n in s.comp.armed && s.ops == ops + [Op(StopK, n, Look, 0, None, None)]
    ensures After(s, [Api(|ops|, Go), Api(|ops|, Go)] + [Api(|ops|, Go)]) ==
            Some(s.(comp := s.comp.(armed := s.comp.armed - {n}), ops := ops + [Op(StopK, n, Over, 0, None, None)]))
  {
    var t, op := |ops|, Op(StopK, n, Look, 0, None, None);
    var s1 := s.(ops := ops + [op.(pc := AskArmed)]);
    var s2 := s.(ops := ops + [op.(pc := Pause)]);
    var s3 := s.(comp := s.comp.(armed := s.comp.armed - {n}), ops := ops + [op.(pc := Over)]);
    assert Enabled(s2, Api(t, Go)) && Apply(s2, Api(t, Go)) == s3;
    hide Apply, After, Enabled;
    StopMoves(s, ops, n, Look, AskArmed);
    StopMoves(s1, ops, n, AskArmed, Pause);
    Two(s, Api(t, Go), Api(t, Go));
    One(s2, Api(t, Go));
    AfterConcat(s, [Api(t, Go), Api(t, Go)], [Api(t, Go)]);
  }

  /** A stop of a process that is not running but watched: it only disarms the watch. */
  lemma StopDisarms(s: State, n: Name) returns (ls: seq<Label>)
    requires s.running == map[] && s.co.lock == None && n in s.comp.armed
    ensures After(s, ls) ==
            Some(s.(co := s.co.(epochs := s.co.epochs[n := Epoch(s.co, n) + 1]),
                    comp := s.comp.(armed := s.comp.armed - {n}),
                    ops := s.ops + [Op(StopK, n, Over, 0, None, None)]))
  {
    hide After;
    var t, first := |s.ops|, [Spawn(StopK, n), Api(|s.ops|, Go)];
    var rest := [Api(t, Go), Api(t, Go)] + [Api(t, Go)];
    StopNotes(s, n);
    var s2 := After(s, first).value;
    StopPauses(s2, s.ops, n);
    ls := Then(s, first, s2, rest, After(s2, rest).value);
  }

  /** One watched process runs to its end; the loop consumes the final zero while the watch is armed and
      goes back to waiting; then the watch is disarmed, by itself or by a stop of the process. The project is quiet, no
      trigger is armed, and nothing is left that could ever complete it. */
  lemma DisarmedTriggerStallsProject(n: Name, byStop: bool) returns (s0: State, ls: seq<Label>, s: State)
    ensures Init(s0) && After(s0, ls) == Some(s)
    ensures Quiet(s) && Silent(s) && s.comp.loop == Select && s.comp.armed == {} && s0.comp.armed == {n}
    ensures s.comp.queue == []
  {
    s0 := Project(map[], NOT_STARTED.(armed := {n}), [], []);
    ls := BootLaunches(s0, n);
    var s1 := After(s0, ls).value;
    assert s1.running == map[n := 0] && s1.incs == [Incarnation(n, Alive)] && s1.ops == [Booted(n, 0)];
    var s2 := s1.(comp := s1.comp.(loop := Select));
    One(s1, Loop(Open));
    ls := Then(s0, ls, s1, [Loop(Open)], s2);
    var ms := LastOneLeaves(s2, 0);
    var s3 := After(s2, ms).value;
    assert s3.incs == [Incarnation(n, Gone)];
    ls := Then(s0, ls, s2, ms, s3);
    ms := ChecksMeetArmedTrigger(s3);
    var s4 := s3.(comp := s3.comp.(loop := Select));
    ls := Then(s0, ls, s3, ms, s4);
    if byStop {
      ms := StopDisarms(s4, n);
    } else {
      One(s4, Disarm(n));
      ms := [Disarm(n)];
    }
    s := After(s4, ms).value;
    ls := Then(s0, ls, s4, ms, s);
  }

  // ----- A zero dropped on a full channel -----

  /** The registry once the first k processes have been launched, each as the incarnation of its own index. */
  function Registered(names: seq<Name>, k: nat): map<Name, Id>
    requires k <= |names|
  {
    if k == 0 then map[] else Registered(names, k - 1)[names[k - 1] := k - 1]
  }

  lemma {:induction false} RegisteredNames(names: seq<Name>, k: nat)
    requires k <= |names| && Distinct(names)
    ensures Registered(names, k).Keys == set i | 0 <= i < k :: names[i]
    ensures |Registered(names, k)| == k
  {
    if k > 0 {
      RegisteredNames(names, k - 1);
      assert names[k - 1] !in Registered(names, k - 1);
      assert Registered(names, k).Keys == Registered(names, k - 1).Keys + {names[k - 1]};
    }
  }

  lemma RegisteredLess(names: seq<Name>, k: nat)
    requires 0 < k <= |names| && Distinct(names)
    ensures Registered(names, k) - {names[k - 1]} == Registered(names, k - 1)
    ensures |Registered(names, k - 1)| == k - 1
    ensures names[k - 1] in Registered(names, k) && Registered(names, k)[names[k - 1]] == k - 1
  {
    RegisteredNames(names, k - 1);
    assert names[k - 1] !in Registered(names, k - 1);
  }

  /** The first k processes are running, each launched once, in order. */
  ghost predicate Launched(s: State, names: seq<Name>, k: nat)
    requires k <= |names|
  {
    && |s.incs| == k && (forall i: Id :: i < k ==> s.incs[i] == Incarnation(names[i], Alive))
    && s.running == Registered(names, k)
    && |s.ops| == k && (forall t: Tid :: t < k ==> s.ops[t].pc == Over)
  }

  lemma {:induction false} BootAll(s: State, names: seq<Name>, k: nat) returns (ls: seq<Label>, s': State)
    requires s.comp.loop == Booting && s.running == map[] && s.incs == [] && s.ops == [] && k <= |names|
    ensures After(s, ls) == Some(s') && Launched(s', names, k) && s'.comp == s.comp && s'.co == s.co
  {
    if k == 0 {
      ls, s' := [], s;
    } else {
      var mid;
      ls, mid := BootAll(s, names, k - 1);
      var last := BootLaunches(mid, names[k - 1]);
      hide After, Apply, Enabled;
      s' := OneMoreLaunched(mid, names[k - 1]);
      ls := Then(s, ls, mid, last, s');
    }
  }

  lemma LoopOpens(s: State) returns (ls: seq<Label>)
    requires s.comp.loop == Booting
    ensures After(s, ls) == Some(s.(comp := s.comp.(loop := Select)))
  {
    ls := [Loop(Open)];
    One(s, Loop(Open));
  }

  lemma UpdateBegins(s: State, n: Name) returns (ls: seq<Label>)
    ensures After(s, ls) ==
            Some(s.(comp := s.comp.(updates := s.comp.updates + 1),
                    ops := s.ops + [Op(UpdateK, n, Busy, 0, None, None)]))
  {
    ls := [Spawn(UpdateK, n), Api(|s.ops|, Go)];
    Two(s, ls[0], ls[1]);
    var op := Op(UpdateK, n, Begin, 0, None, None);
    assert (s.ops + [op])[|s.ops| := op.(pc := Busy)] == s.ops + [op.(pc := Busy)];
  }

  /** The processes from k on have left the registry, last launched first; each has still to report its count. */
  ghost predicate LeftFrom(s: State, names: seq<Name>, k: nat)
    requires k <= |names|
  {
    && |s.incs| == |names|
    && (forall i: Id :: i < k ==> s.incs[i] == Incarnation(names[i], Alive))
    && (forall i: Id :: k <= i < |names| ==> s.incs[i] == Incarnation(names[i], Reporting(i)))
    && s.running == Registered(names, k)
  }

  lemma LeaveNext(s: State, names: seq<Name>, k: nat) returns (s': State)
    requires 0 < k <= |names| && Distinct(names) && LeftFrom(s, names, k)
    ensures Enabled(s, Leave(k - 1, Deregister)) && s' == Apply(s, Leave(k - 1, Deregister))
    ensures LeftFrom(s', names, k - 1) && s' == s.(incs := s'.incs, running := s'.running)
  {
    RegisteredLess(names, k);
    s' := Apply(s, Leave(k - 1, Deregister));
  }

  lemma {:induction false} LeaveInTurn(s: State, names: seq<Name>, k: nat) returns (ls: seq<Label>, s': State)
    requires k <= |names| && Distinct(names) && LeftFrom(s, names, |names|)
    ensures After(s, ls) == Some(s') && LeftFrom(s', names, k)
    ensures s' == s.(incs := s'.incs, running := s'.running)
    decreases |names| - k
  {
    hide Distinct, Registered, Apply, Enabled;
    if k == |names| {
      ls, s' := [], s;
    } else {
      var mid;
      ls, mid := LeaveInTurn(s, names, k + 1);
      hide After, Apply, Enabled, LeftFrom, Registered, Distinct;
      s' := LeaveNext(mid, names, k + 1);
      One(mid, Leave(k, Deregister));
      ls := Then(s, ls, mid, [Leave(k, Deregister)], s');
    }
  }

  /** Incarnations 1 to k, each committed to a count other than zero, queue it. */
  lemma {:induction false} CountsQueued(s: State, k: nat) returns (ls: seq<Label>, s': State)
    requires k < |s.incs| && |s.comp.queue| + k <= CAP && 0 !in s.comp.queue
    requires forall i: Id :: 1 <= i <= k ==> s.incs[i].fate == Reporting(i)
    ensures After(s, ls) == Some(s') && s' == s.(incs := s'.incs, comp := s.comp.(queue := s'.comp.queue))
    ensures |s'.incs| == |s.incs|
    ensures forall i: Id :: 1 <= i <= k ==> s'.incs[i].fate == Gone
    ensures forall i: Id :: i < |s.incs| && (i == 0 || i > k) ==> s'.incs[i] == s.incs[i]
    ensures |s'.comp.queue| == |s.comp.queue| + k && 0 !in s'.comp.queue
  {
    if k == 0 {
      ls, s' := [], s;
    } else {
      var mid;
      ls, mid := CountsQueued(s, k - 1);
      One(mid, Leave(k, Report));
      s' := Apply(mid, Leave(k, Report));
      ls := Then(s, ls, mid, [Leave(k, Report)], s');
    }
  }

  /** The loop takes the zero, finds an update in flight and waits again. */
  lemma ChecksMeetUpdate(s: State) returns (ls: seq<Label>)
    requires s.comp.loop == CheckRestarts && s.co.lock == None && s.co.calls == {} && s.comp.updates > 0
    ensures After(s, ls) == Some(s.(comp := s.comp.(loop := Select)))
  {
    ls := [Loop(Check), Loop(Check)];
    Two(s, ls[0], ls[1]);
  }

  /** Update t ends; its re-trigger meets a full channel. */
  lemma UpdateEndsUnheard(s: State, t: Tid) returns (ls: seq<Label>, s': State)
    requires t < |s.ops| && s.ops[t].pc == Busy && s.comp.updates == 1 && s.running == map[]
    requires |s.comp.queue| == CAP
    ensures After(s, ls) == Some(s')
    ensures s' == s.(comp := s.comp.(updates := 0), ops := s.ops[t := s.ops[t].(pc := Over)])
  {
    var s1 := Apply(s, Api(t, EndUpdate));
    assert s1 == s.(comp := s.comp.(updates := 0), ops := s.ops[t := s.ops[t].(pc := Read)]);
    Two(s, Api(t, EndUpdate), Api(t, Go));
    var s2 := Apply(s1, Api(t, Go));
    assert s2.ops == s.ops[t := s.ops[t].(pc := Send)];
    One(s2, Api(t, Go));
    s' := Apply(s2, Api(t, Go));
    assert s'.ops == s.ops[t := s.ops[t].(pc := Over)];
    ls := Then(s, [Api(t, EndUpdate), Api(t, Go)], s2, [Api(t, Go)], s');
  }

  /** An update is in flight, the loop waits, and the first of the processes alone is still running. */
  ghost predicate OneStillRuns(s: State, names: seq<Name>) {
    && |names| > 0 && LeftFrom(s, names, 1)
    && s.co == Coalescing({}, map[], None) && s.comp == NOT_STARTED.(loop := Select, updates := 1)
    && |s.ops| == |names| + 1 && s.ops[|names|].pc == Busy
    && (forall t: Tid :: t < |names| ==> s.ops[t].pc == Over)
  }

  /** The project is launched, the loop opens, an update begins, and all processes but the first leave. */
  lemma AllButOneLeave(names: seq<Name>) returns (s0: State, ls: seq<Label>, s: State)
    requires |names| > 0 && Distinct(names)
    ensures Init(s0) && s0.comp.armed == {} && After(s0, ls) == Some(s) && OneStillRuns(s, names)
  {
    hide After, Apply, Enabled;
    s0 := Project(map[], NOT_STARTED, [], []);
    var s1, s2, s3, ms;
    ls, s1 := BootAll(s0, names, |names|);
    ms := LoopOpens(s1);
    s2 := After(s1, ms).value;
    ls := Then(s0, ls, s1, ms, s2);
    ms := UpdateBegins(s2, names[0]);
    s3 := After(s2, ms).value;
    ls := Then(s0, ls, s2, ms, s3);
    ms, s := LeaveInTurn(s3, names, 1);
    ls := Then(s0, ls, s3, ms, s);
  }

  /** CAP + 1 processes are launched, once each. All but one leave the registry during an update, their
      counts not queued yet. The last one leaves, and the loop consumes its zero while the update is in
      flight. Then the other counts fill the channel, so the update's re-trigger is dropped. The project is
      quiet, no trigger is armed, and nothing is left that could ever complete it. */
  lemma FullChannelStallsProject(names: seq<Name>) returns (s0: State, ls: seq<Label>, s: State)
    requires |names| == CAP + 1 && Distinct(names)
    ensures Init(s0) && s0.comp.armed == {} && After(s0, ls) == Some(s)
    ensures Quiet(s) && Silent(s) && s.comp.loop == Select && s.comp.armed == {}
  {
    hide After, Apply, Enabled;
    var s1, s4, ms;
    s0, ls, s1 := AllButOneLeave(names);
    assert Registered(names, 0) == map[];
    assert s1.running == map[names[0] := 0];
    ms := LastOneLeaves(s1, 0);
    var s2 := After(s1, ms).value;
    ls := Then(s0, ls, s1, ms, s2);
    ms := ChecksMeetUpdate(s2);
    var s3 := After(s2, ms).value;
    ls := Then(s0, ls, s2, ms, s3);
    ms, s4 := CountsQueued(s3, CAP);
    ls := Then(s0, ls, s3, ms, s4);
    ms, s := UpdateEndsUnheard(s4, |names|);
    ls := Then(s0, ls, s4, ms, s);
    assert s.incs[0].fate == Gone;
  }
}

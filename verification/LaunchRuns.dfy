/** Every kind of operation that launches can do so: left alone, its own steps take it to the launch, from any state. */
module LaunchRuns {
  import opened Common
  import opened RunnerProtocol
  import opened Completion
  import opened CompletionReached
  import opened CompletionLimits

  /** The state with one operation more. */
  function With(s: State, op: Op): State {
    s.(ops := s.ops + [op])
  }

  /** The operation just added takes one step. */
  predicate Steps(s: State, op: Op, a: OpAct, next: State, op': Op) {
    && next.ops == s.ops && OpEnabled(With(s, op), |s.ops|, a)
    && OpStep(With(s, op), |s.ops|, a) == next.(ops := With(s, op).ops[|s.ops| := op'])
  }

  lemma OwnStep(s: State, op: Op, a: OpAct, ls: seq<Label>, from: State, next: State, op': Op) returns (all: seq<Label>)
    requires After(from, ls) == Some(With(s, op)) && Steps(s, op, a, next, op')
    ensures After(from, all) == Some(With(next, op'))
  {
    assert With(s, op).ops[|s.ops| := op'] == s.ops + [op'];
    hide OpEnabled, OpStep;
    One(With(s, op), Api(|s.ops|, a));
    all := Then(from, ls, With(s, op), [Api(|s.ops|, a)], With(next, op'));
  }

  lemma Spawned(s: State, kind: Kind, n: Name) returns (ls: seq<Label>)
    requires kind == BootK ==> s.comp.loop == Booting
    ensures After(s, ls) == Some(With(s, Op(kind, n, FirstPc(kind), 0, None, None)))
  {
    One(s, Spawn(kind, n));
    ls := [Spawn(kind, n)];
  }

  lemma Defines(s: State, op: Op)
    requires op.pc == Define
    ensures Steps(s, op, Go, s.(defined := s.defined + {op.name}), op.(pc := Register))
  {
  }

  lemma Undefines(s: State, op: Op)
    requires op.pc == Undefine
    ensures Steps(s, op, Go, s.(defined := s.defined - {op.name}), op.(pc := Look))
  {
  }

  lemma Looks(s: State, op: Op)
    requires op.pc == Look
    ensures op.name in s.running ==>
              Steps(s, op, Go, s, op.(pc := AfterHit(op.kind), seen := Some(s.running[op.name])))
    ensures op.name !in s.running ==>
              Steps(s, op, Go, s, op.(pc := AfterMiss(op.kind, op.name in s.defined), seen := None))
  {
  }

  lemma ShutsDown(s: State, op: Op, failed: bool)
    requires op.pc == Down
    ensures Steps(s, op, if failed then Failed else Go, s, op.(pc := AfterDown(op.kind, failed)))
  {
  }

  lemma Registers(s: State, op: Op)
    requires op.pc == Register
    ensures Steps(s, op, Go, Launched(s, op.name), op.(pc := AfterRegister(op.kind), launched := Some(|s.incs|)))
  {
  }

  lemma Notes(s: State, op: Op)
    requires op.pc == Note && s.co.lock == None
    ensures Steps(s, op, Go, s.(co := s.co.(epochs := s.co.epochs[op.name := Epoch(s.co, op.name) + 1])),
                  op.(pc := Look))
  {
  }

  /** The state in which a new incarnation of n is the one registered. */
  function Launched(s: State, n: Name): State {
    s.(running := s.running[n := |s.incs|], incs := s.incs + [Incarnation(n, Alive)])
  }

  /** A start launches a process that is defined and not running. */
  lemma StartLaunches(s: State, n: Name) returns (ls: seq<Label>)
    requires n in s.defined && n !in s.running
    ensures After(s, ls) == Some(With(Launched(s, n), Op(StartK, n, Over, 0, None, Some(|s.incs|))))
  {
    hide After;
    var op := Op(StartK, n, Look, 0, None, None);
    Looks(s, op);
    Registers(s, op.(pc := Register));
    hide Steps;
    ls := Spawned(s, StartK, n);
    ls := OwnStep(s, op, Go, ls, s, s, op.(pc := Register));
    ls := OwnStep(s, op.(pc := Register), Go, ls, s, Launched(s, n), op.(pc := Over, launched := Some(|s.incs|)));
  }

  /** The restart registers itself, samples the stop epoch and looks for a running incarnation. */
  lemma RestartLooks(s: State, n: Name) returns (ls: seq<Label>)
    requires s.co.lock == None && n !in s.co.calls
    ensures After(s, ls) == Some(With(s.(co := s.co.(calls := s.co.calls + {n})),
                                      Op(RestartK, n, if n in s.running then Down else Compare, Epoch(s.co, n),
                                         if n in s.running then Some(s.running[n]) else None, None)))
  {
    hide After;
    var op, e := Op(RestartK, n, Join, 0, None, None), Epoch(s.co, n);
    var s1 := s.(co := s.co.(calls := s.co.calls + {n}));
    ls := Spawned(s, RestartK, n);
    ls := OwnStep(s, op, Go, ls, s, s1, op.(pc := Sample));
    ls := OwnStep(s1, op.(pc := Sample), Go, ls, s, s1, op.(pc := Look, epoch := e));
    Looks(s1, op.(pc := Look, epoch := e));
    hide Steps;
    ls := OwnStep(s1, op.(pc := Look, epoch := e), Go, ls, s, s1,
                  if n in s.running then op.(pc := Down, epoch := e, seen := Some(s.running[n]))
                  else op.(pc := Compare, epoch := e));
  }

  /** The restart has been let through: it launches, and drops its registration. */
  lemma RestartRegisters(s: State, s1: State, n: Name, op: Op, ls0: seq<Label>) returns (ls: seq<Label>)
    requires s.co.lock == None && n !in s.co.calls && n in s.defined && s1 == s.(co := s.co.(calls := s.co.calls + {n}))
    requires op.kind == RestartK && op.name == n && op.pc == Compare && op.epoch == Epoch(s.co, n)
    requires After(s, ls0) == Some(With(s1, op))
    ensures After(s, ls) == Some(With(Launched(s, n), op.(pc := Over, launched := Some(|s.incs|))))
  {
    hide After;
    var s2 := s1.(co := s1.co.(lock := Some(|s.ops|)));
    var s3 := Launched(s2, n);
    var done := op.(launched := Some(|s.incs|));
    ls := OwnStep(s1, op, Go, ls0, s, s2, op.(pc := Register));
    Registers(s2, op.(pc := Register));
    ls := OwnStep(s2, op.(pc := Register), Go, ls, s, s3, done.(pc := Unlock));
    ls := OwnStep(s3, done.(pc := Unlock), Go, ls, s, Launched(s1, n), done.(pc := Cleanup));
    hide Steps;
    assert n in Launched(s, n).running;
    ls := RestartEnds(s, Launched(s, n), done.(pc := Cleanup), ls);
  }

  /** The restart drops its registration, with something running. */
  lemma RestartEnds(from: State, s: State, op: Op, ls0: seq<Label>) returns (ls: seq<Label>)
    requires op.pc == Cleanup && |s.running| > 0 && s.co.lock == None && op.name !in s.co.calls
    requires After(from, ls0) == Some(With(s.(co := s.co.(calls := s.co.calls + {op.name})), op))
    ensures After(from, ls) == Some(With(s, op.(pc := Over)))
  {
    hide After;
    assert s.co.calls + {op.name} - {op.name} == s.co.calls;
    ls := OwnStep(s.(co := s.co.(calls := s.co.calls + {op.name})), op, Go, ls0, from, s, op.(pc := Read));
    ls := OwnStep(s, op.(pc := Read), Go, ls, from, s, op.(pc := Over));
  }

  /** A restart of a defined process that is not being restarted launches it: at once if it is not running, and
      otherwise once the running incarnation has been shut down. */
  lemma RestartLaunches(s: State, n: Name) returns (ls: seq<Label>)
    requires s.co.lock == None && n !in s.co.calls && n in s.defined
    ensures After(s, ls) == Some(With(Launched(s, n), Op(RestartK, n, Over, Epoch(s.co, n),
                                                         if n in s.running then Some(s.running[n]) else None,
                                                         Some(|s.incs|))))
  {
    hide After;
    var s1, e := s.(co := s.co.(calls := s.co.calls + {n})), Epoch(s.co, n);
    ls := RestartLooks(s, n);
    var op := Op(RestartK, n, Compare, e, if n in s.running then Some(s.running[n]) else None, None);
    ShutsDown(s1, op.(pc := Down), false);
    hide Steps;
    if n in s.running {
      ls := OwnStep(s1, op.(pc := Down), Go, ls, s, s1, op);
    }
    ls := RestartRegisters(s, s1, n, op, ls);
  }

  /** If that shutdown fails, the restart ends with nothing changed. */
  lemma RestartGivesUp(s: State, n: Name) returns (ls: seq<Label>)
    requires s.co.lock == None && n !in s.co.calls && n in s.running
    ensures After(s, ls) ==
            Some(With(s, Op(RestartK, n, Over, Epoch(s.co, n), Some(s.running[n]), None)))
  {
    hide After;
    var s1 := s.(co := s.co.(calls := s.co.calls + {n}));
    var op := Op(RestartK, n, Down, Epoch(s.co, n), Some(s.running[n]), None);
    ShutsDown(s1, op, true);
    hide Steps;
    ls := RestartLooks(s, n);
    ls := OwnStep(s1, op, Failed, ls, s, s1, op.(pc := Cleanup));
    ls := RestartEnds(s, s, op.(pc := Cleanup), ls);
  }

  /** An addition defines and launches its process, and so does an update for each process it adds. */
  lemma AdditionLaunches(s: State, n: Name) returns (ls: seq<Label>)
    ensures After(s, ls) == Some(With(Launched(s.(defined := s.defined + {n}), n),
                                      Op(AddK, n, Over, 0, None, Some(|s.incs|))))
  {
    hide After;
    var op, s1 := Op(AddK, n, Define, 0, None, None), s.(defined := s.defined + {n});
    Defines(s, op);
    Registers(s1, op.(pc := Register));
    hide Steps;
    ls := Spawned(s, AddK, n);
    ls := OwnStep(s, op, Go, ls, s, s1, op.(pc := Register));
    ls := OwnStep(s1, op.(pc := Register), Go, ls, s, Launched(s1, n), op.(pc := Over, launched := Some(|s.incs|)));
  }

  function UpdateBegun(s: State): State {
    s.(comp := s.comp.(updates := s.comp.updates + 1))
  }

  /** The update ends, with something running. */
  lemma UpdateEnds(from: State, s: State, op: Op, ls0: seq<Label>) returns (ls: seq<Label>)
    requires op.pc == Busy && |s.running| > 0 && After(from, ls0) == Some(With(UpdateBegun(s), op))
    ensures After(from, ls) == Some(With(s, op.(pc := Over)))
  {
    hide After;
    var at := if s.comp.updates == 0 then Read else Over;
    ls := OwnStep(UpdateBegun(s), op, EndUpdate, ls0, from, s, op.(pc := at));
    if at == Read {
      ls := OwnStep(s, op.(pc := Read), Go, ls, from, s, op.(pc := Over));
    }
  }

  /** An update begins, and turns to a process it adds or removes. */
  lemma UpdatePicks(s: State, m: Name, add: bool, n: Name) returns (ls: seq<Label>)
    ensures After(s, ls) == Some(With(UpdateBegun(s), Op(UpdateK, n, if add then Define else Undefine, 0, None, None)))
  {
    hide After;
    var op := Op(UpdateK, m, Begin, 0, None, None);
    ls := Spawned(s, UpdateK, m);
    ls := OwnStep(s, op, Go, ls, s, UpdateBegun(s), op.(pc := Busy));
    ls := OwnStep(UpdateBegun(s), op.(pc := Busy), Pick(add, n), ls, s, UpdateBegun(s),
                  op.(name := n, pc := if add then Define else Undefine));
  }

  lemma UpdateLaunches(s: State, m: Name, n: Name) returns (ls: seq<Label>)
    ensures After(s, ls) == Some(With(Launched(s.(defined := s.defined + {n}), n),
                                      Op(UpdateK, n, Over, 0, None, Some(|s.incs|))))
  {
    hide After;
    var op, s1 := Op(UpdateK, n, Define, 0, None, None), s.(defined := s.defined + {n});
    Defines(UpdateBegun(s), op);
    Registers(UpdateBegun(s1), op.(pc := Register));
    hide Steps;
    ls := UpdatePicks(s, m, true, n);
    ls := OwnStep(UpdateBegun(s), op, Go, ls, s, UpdateBegun(s1), op.(pc := Register));
    ls := OwnStep(UpdateBegun(s1), op.(pc := Register), Go, ls, s, UpdateBegun(Launched(s1, n)),
                  op.(pc := Busy, launched := Some(|s.incs|)));
    assert n in Launched(s1, n).running;
    ls := UpdateEnds(s, Launched(s1, n), op.(pc := Busy, launched := Some(|s.incs|)), ls);
  }

  /** An update turns to a running process it removes, and undefines it. */
  lemma UpdateUndefines(s: State, m: Name, n: Name) returns (ls: seq<Label>)
    ensures After(s, ls) == Some(With(UpdateBegun(s.(defined := s.defined - {n})), Op(UpdateK, n, Look, 0, None, None)))
  {
    hide After;
    var op := Op(UpdateK, n, Undefine, 0, None, None);
    Undefines(UpdateBegun(s), op);
    hide Steps;
    ls := UpdatePicks(s, m, false, n);
    ls := OwnStep(UpdateBegun(s), op, Go, ls, s, UpdateBegun(s.(defined := s.defined - {n})), op.(pc := Look));
  }

  /** An update that removes a running process undefines it and shuts it down. */
  lemma UpdateRemoves(s: State, m: Name, n: Name) returns (ls: seq<Label>)
    requires n in s.running
    ensures After(s, ls) == Some(With(s.(defined := s.defined - {n}),
                                      Op(UpdateK, n, Over, 0, Some(s.running[n]), None)))
  {
    hide After;
    var s1 := s.(defined := s.defined - {n});
    ls := UpdateUndefines(s, m, n);
    ls := UpdateShutsDown(s, s1, n, ls);
  }

  lemma UpdateShutsDown(from: State, s: State, n: Name, ls0: seq<Label>) returns (ls: seq<Label>)
    requires n in s.running && After(from, ls0) == Some(With(UpdateBegun(s), Op(UpdateK, n, Look, 0, None, None)))
    ensures After(from, ls) == Some(With(s, Op(UpdateK, n, Over, 0, Some(s.running[n]), None)))
  {
    hide After;
    var s1, op := UpdateBegun(s), Op(UpdateK, n, Look, 0, None, None);
    var seen := op.(pc := Down, seen := Some(s.running[n]));
    assert s1.running == s.running;
    Looks(s1, op);
    ShutsDown(s1, seen, false);
    hide Steps, UpdateBegun;
    ls := OwnStep(s1, op, Go, ls0, from, s1, seen);
    ls := OwnStep(s1, seen, Go, ls, from, s1, seen.(pc := Busy));
    ls := UpdateEnds(from, s, seen.(pc := Busy), ls);
  }

  /** A stop that finds its process neither running nor armed leaves nothing behind but its note; only if a restart of
      it is in flight does it go on to disarm what may have been armed since. */
  lemma StopFindsNothing(s: State, n: Name) returns (ls: seq<Label>)
    requires s.co.lock == None && n !in s.running && n !in s.comp.armed
    ensures After(s, ls) == Some(With(s.(co := s.co.(epochs := s.co.epochs[n := Epoch(s.co, n) + 1])),
                                      Op(StopK, n, if n in s.co.calls then Pause else Over, 0, None, None)))
  {
    hide After;
    var op, s1 := Op(StopK, n, Note, 0, None, None), s.(co := s.co.(epochs := s.co.epochs[n := Epoch(s.co, n) + 1]));
    Notes(s, op);
    Looks(s1, op.(pc := Look));
    hide Steps;
    ls := Spawned(s, StopK, n);
    ls := OwnStep(s, op, Go, ls, s, s1, op.(pc := Look));
    ls := OwnStep(s1, op.(pc := Look), Go, ls, s, s1, op.(pc := AskArmed));
    ls := StopAsks(s, s1, op.(pc := AskArmed), ls);
  }

  /** The two questions of a stop. */
  lemma StopAsks(from: State, s: State, op: Op, ls0: seq<Label>) returns (ls: seq<Label>)
    requires op.pc == AskArmed && s.co.lock == None && op.name !in s.comp.armed
    requires After(from, ls0) == Some(With(s, op))
    ensures After(from, ls) == Some(With(s, op.(pc := if op.name in s.co.calls then Pause else Over)))
  {
    hide After;
    ls := OwnStep(s, op, Go, ls0, from, s, op.(pc := AskRestart));
    ls := OwnStep(s, op.(pc := AskRestart), Go, ls, from, s, op.(pc := if op.name in s.co.calls then Pause else Over));
  }

  // ----- The end of the completion loop -----

  predicate LoopEnded(s: State) {
    s.comp.loop == Complete || s.comp.loop == Cancelled
  }

  lemma EndedLoopRests(s: State, l: Label, s': State)
    requires Next(s, l, s')
    ensures LoopEnded(s) ==> s'.comp.loop == s.comp.loop
  {
    if !l.Loop? {
      OthersLeaveLoop(s, l, s');
    }
    hide OpStep, LeaveStep;
  }

  /** The loop ends once: whether the project completed or was cancelled is never changed. It can be cancelled whenever
      it waits for a count. */
  lemma {:induction false} LoopEndsOnce(path: seq<State>, labels: seq<Label>, i: nat, k: nat)
    requires IsRun(path, labels) && i <= k < |path|
    ensures LoopEnded(path[i]) ==> path[k].comp.loop == path[i].comp.loop
    ensures path[i].comp.loop == Select ==> After(path[i], [Loop(RunnerProtocol.Cancel)]) ==
                                            Some(path[i].(comp := path[i].comp.(loop := Cancelled)))
    decreases k
  {
    if path[i].comp.loop == Select {
      One(path[i], Loop(RunnerProtocol.Cancel));
    }
    hide After, Next;
    if i < k {
      LoopEndsOnce(path, labels, i, k - 1);
      EndedLoopRests(path[k - 1], labels[k - 1], path[k]);
    }
  }
}

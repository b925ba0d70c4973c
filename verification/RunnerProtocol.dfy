/** The protocol between process launches, stops, restarts, updates and project completion.

    Every block the runner guards with one mutex, every atomic operation and every channel operation
    is one step, so the transitions interleave exactly where goroutines can. Three families of
    goroutines take steps: the incarnations `runProcess` launches (here: alive until they leave the
    registry at a moment of their own choosing), the API operations, and the completion loop of `Run`.

    Incarnations and operations are never forgotten, so a position in `incs` or `ops` stands for the
    object's identity, and `incs` lists incarnations in the order they were registered. */
module RunnerProtocol {
  import opened Common

  type Id = nat
  type Tid = nat

  /** The capacity of the completion channel. */
  const CAP: nat := 128

  /** Alive until removeRunningProcess; then committed to reporting a count, or gone. */
  datatype Fate = Alive | Reporting(count: nat) | Gone

  datatype Incarnation = Incarnation(name: Name, fate: Fate)

  datatype Kind = StopK | RestartK | StartK | UpdateK | RemoveK | AddK | BootK

  datatype Pc =
    | Note      // noteStopRequest
    | Join      // restartProcessWithOpts: join or register the restart
    | Sample    // doRestart: read the stop epoch
    | Look      // getRunningProcess
    | Down      // shutting the incarnation found down, and whatever waiting follows
    | Compare   // launchUnlessStopped: take restartMutex, compare the epochs
    | Define    // addProcessAndRun: store the configuration
    | Undefine  // removeProcess: delete the configuration
    | Register  // addRunningProcess
    | Unlock    // launchUnlessStopped: release restartMutex
    | Cleanup   // drop the restart call
    | Read      // retriggerCompletionCheck: count what is running
    | Send      // retriggerCompletionCheck: try to queue a zero
    | Begin     // beginUpdate
    | Busy      // inside an update, between two of its actions
    | AskArmed  // a stop that found nothing running: is a schedule or a watch armed?
    | AskRestart // ... or a restart in flight?
    | Pause     // pause the watch and the schedule
    | Over

  /** `seen` is what Look found, `launched` the incarnation a Register added; both are history. */
  datatype Op = Op(kind: Kind, name: Name, pc: Pc, epoch: nat, seen: Option<Id>, launched: Option<Id>)

  datatype LoopPc =
    | Booting | Select | CheckRestarts | CheckUpdates | CheckRunning | CheckTriggers | Complete | Cancelled

  /** The state restartMutex guards. */
  datatype Coalescing = Coalescing(calls: set<Name>, epochs: map<Name, nat>, lock: Option<Tid>)

  /** What the completion loop consumes and what it checks besides the registry. */
  datatype Completion = Completion(loop: LoopPc, queue: seq<nat>, updates: int, armed: set<Name>)

  datatype State = State(
    running: map<Name, Id>,
    defined: set<Name>,
    co: Coalescing,
    comp: Completion,
    incs: seq<Incarnation>,
    ops: seq<Op>)

  datatype LeaveAct = Deregister | Report

  /** `Go` is the only thing an operation can do where it is; the others carry a choice. */
  datatype OpAct = Go | Failed | Pick(add: bool, name: Name) | EndUpdate

  datatype LoopAct = Open | Receive | Check | Cancel

  datatype Label =
    | Leave(id: Id, leave: LeaveAct)
    | Api(t: Tid, act: OpAct)
    | Loop(loop: LoopAct)
    | Spawn(kind: Kind, name: Name)
    | Arm(name: Name)
    | Disarm(name: Name)

  // ----- Incarnations -----

  /** removeRunningProcess: the registry afterwards, and whether the caller deregistered itself. */
  function RemoveRunning(running: map<Name, Id>, name: Name, id: Id): (map<Name, Id>, bool) {
    if name in running && running[name] != id then (running, false) else (running - {name}, true)
  }

  predicate LeaveEnabled(s: State, id: Id, a: LeaveAct) {
    && id < |s.incs|
    && match a
       case Deregister => s.incs[id].fate.Alive?
       case Report => s.incs[id].fate.Reporting? && |s.comp.queue| < CAP
  }

  function LeaveStep(s: State, id: Id, a: LeaveAct): State
    requires LeaveEnabled(s, id, a)
  {
    var inc := s.incs[id];
    match a
    case Deregister =>
      var (running, removed) := RemoveRunning(s.running, inc.name, id);
      s.(running := running, incs := s.incs[id := inc.(fate := if removed then Reporting(|running|) else Gone)])
    case Report =>
      s.(comp := s.comp.(queue := s.comp.queue + [inc.fate.count]), incs := s.incs[id := inc.(fate := Gone)])
  }

  // ----- Operations -----

  /** stopEpochs[name], with Go's zero value for an absent key. */
  function Epoch(co: Coalescing, name: Name): nat {
    if name in co.epochs then co.epochs[name] else 0
  }

  function FirstPc(kind: Kind): Pc {
    match kind
    case StopK => Note
    case RestartK => Join
    case StartK => Look
    case UpdateK => Begin
    case RemoveK => Undefine
    case AddK => Define
    case BootK => Register
  }

  /** Where an operation goes having found an incarnation running. */
  function AfterHit(kind: Kind): Pc {
    if kind == StartK then Over else Down
  }

  /** Where an operation goes having found none. */
  function AfterMiss(kind: Kind, isDefined: bool): Pc {
    match kind
    case StopK => AskArmed
    case RestartK => Compare
    case StartK => if isDefined then Register else Over
    case UpdateK => Busy
    case _ => Over
  }

  /** Where an operation goes once the incarnation it found is shut down, or could not be. */
  function AfterDown(kind: Kind, failed: bool): Pc {
    match kind
    case StopK => Pause
    case RestartK => if failed then Cleanup else Compare
    case UpdateK => Busy
    case _ => Over
  }

  function AfterRegister(kind: Kind): Pc {
    match kind
    case RestartK => Unlock
    case UpdateK => Busy
    case _ => Over
  }

  predicate NeedsLock(pc: Pc) {
    pc == Note || pc == Join || pc == Sample || pc == Compare || pc == Cleanup || pc == AskRestart
  }

  /** The places of RegistryStep. */
  predicate AtRegistry(pc: Pc) {
    pc == Look || pc == Down || pc == Define || pc == Undefine || pc == Register
  }

  /** The places of CheckStep. */
  predicate AtCheck(pc: Pc) {
    pc == Read || pc == Send || pc == Begin || pc == Busy || pc == AskArmed || pc == Pause
  }

  predicate OpEnabled(s: State, t: Tid, a: OpAct) {
    && t < |s.ops|
    && var pc := s.ops[t].pc;
       match a
       case Go => pc != Busy && pc != Over && (NeedsLock(pc) ==> s.co.lock == None)
       case Failed => pc == Down
       case Pick(_, _) => pc == Busy
       case EndUpdate => pc == Busy
  }

  /** Steps under restartMutex. */
  function CoalesceStep(s: State, t: Tid): State
    requires t < |s.ops| && (NeedsLock(s.ops[t].pc) || s.ops[t].pc == Unlock)
  {
    var op := s.ops[t];
    match op.pc
    case Note =>
      s.(co := s.co.(epochs := s.co.epochs[op.name := Epoch(s.co, op.name) + 1]), ops := s.ops[t := op.(pc := Look)])
    case Join =>
      s.(co := s.co.(calls := s.co.calls + {op.name}),
         ops := s.ops[t := op.(pc := if op.name in s.co.calls then Over else Sample)])
    case Sample => s.(ops := s.ops[t := op.(pc := Look, epoch := Epoch(s.co, op.name))])
    case Compare =>
      if Epoch(s.co, op.name) == op.epoch && op.name in s.defined
      then s.(co := s.co.(lock := Some(t)), ops := s.ops[t := op.(pc := Register)])
      else s.(ops := s.ops[t := op.(pc := Cleanup)])
    case AskRestart => s.(ops := s.ops[t := op.(pc := if op.name in s.co.calls then Pause else Over)])
    case Unlock => s.(co := s.co.(lock := None), ops := s.ops[t := op.(pc := Cleanup)])
    case _ => s.(co := s.co.(calls := s.co.calls - {op.name}), ops := s.ops[t := op.(pc := Read)])
  }

  /** Steps on the registry and the project's configurations. */
  function RegistryStep(s: State, t: Tid, failed: bool): State
    requires t < |s.ops|
    requires AtRegistry(s.ops[t].pc)
  {
    var op := s.ops[t];
    match op.pc
    case Look =>
      if op.name in s.running
      then s.(ops := s.ops[t := op.(pc := AfterHit(op.kind), seen := Some(s.running[op.name]))])
      else s.(ops := s.ops[t := op.(pc := AfterMiss(op.kind, op.name in s.defined), seen := None)])
    case Down => s.(ops := s.ops[t := op.(pc := AfterDown(op.kind, failed))])
    case Define => s.(defined := s.defined + {op.name}, ops := s.ops[t := op.(pc := Register)])
    case Undefine => s.(defined := s.defined - {op.name}, ops := s.ops[t := op.(pc := Look)])
    case _ =>
      s.(incs := s.incs + [Incarnation(op.name, Alive)], running := s.running[op.name := |s.incs|],
         ops := s.ops[t := op.(pc := AfterRegister(op.kind), launched := Some(|s.incs|))])
  }

  /** retriggerCompletionCheck's non-blocking send. */
  function TrySend(comp: Completion): Completion {
    if |comp.queue| < CAP then comp.(queue := comp.queue + [0]) else comp
  }

  /** Steps around the completion check: the re-trigger, the update counter, the armed watches. */
  function CheckStep(s: State, t: Tid, a: OpAct): State
    requires t < |s.ops|
    requires AtCheck(s.ops[t].pc)
  {
    var op := s.ops[t];
    match op.pc
    case Read => s.(ops := s.ops[t := op.(pc := if |s.running| > 0 then Over else Send)])
    case Send => s.(comp := TrySend(s.comp), ops := s.ops[t := op.(pc := Over)])
    case Begin => s.(comp := s.comp.(updates := s.comp.updates + 1), ops := s.ops[t := op.(pc := Busy)])
    case AskArmed => s.(ops := s.ops[t := op.(pc := if op.name in s.comp.armed then Pause else AskRestart)])
    case Pause => s.(comp := s.comp.(armed := s.comp.armed - {op.name}), ops := s.ops[t := op.(pc := Over)])
    case _ =>
      if a.Pick? then s.(ops := s.ops[t := op.(pc := if a.add then Define else Undefine, name := a.name)])
      else s.(comp := s.comp.(updates := s.comp.updates - 1),
              ops := s.ops[t := op.(pc := if s.comp.updates - 1 == 0 then Read else Over)])
  }

  function OpStep(s: State, t: Tid, a: OpAct): State
    requires OpEnabled(s, t, a)
  {
    var pc := s.ops[t].pc;
    if NeedsLock(pc) || pc == Unlock then CoalesceStep(s, t)
    else if AtCheck(pc) then CheckStep(s, t, a)
    else RegistryStep(s, t, a == Failed)
  }

  // ----- The completion loop -----

  predicate LoopEnabled(s: State, a: LoopAct) {
    match a
    case Open => s.comp.loop == Booting
    case Receive => s.comp.loop == Select && |s.comp.queue| > 0
    case Check =>
      || (s.comp.loop == CheckRestarts && s.co.lock == None)
      || s.comp.loop == CheckUpdates || s.comp.loop == CheckRunning || s.comp.loop == CheckTriggers
    case Cancel => s.comp.loop == Select
  }

  function LoopStep(s: State, a: LoopAct): State
    requires LoopEnabled(s, a)
  {
    var c := s.comp;
    match a
    case Open => s.(comp := c.(loop := Select))
    case Receive => s.(comp := c.(queue := c.queue[1..], loop := if c.queue[0] == 0 then CheckRestarts else Select))
    case Cancel => s.(comp := c.(loop := Cancelled))
    case Check =>
      match c.loop
      case CheckRestarts => s.(comp := c.(loop := if |s.co.calls| > 0 then Select else CheckUpdates))
      case CheckUpdates => s.(comp := c.(loop := if c.updates > 0 then Select else CheckRunning))
      case CheckRunning => s.(comp := c.(loop := if |s.running| > 0 then Select else CheckTriggers))
      case _ => s.(comp := c.(loop := if |c.armed| > 0 then Select else Complete))
  }

  // ----- The whole system -----

  predicate Enabled(s: State, l: Label) {
    match l
    case Leave(id, a) => LeaveEnabled(s, id, a)
    case Api(t, a) => OpEnabled(s, t, a)
    case Loop(a) => LoopEnabled(s, a)
    case Spawn(kind, _) => kind == BootK ==> s.comp.loop == Booting
    case Arm(_) => true
    case Disarm(_) => true
  }

  function Apply(s: State, l: Label): State
    requires Enabled(s, l)
  {
    match l
    case Leave(id, a) => LeaveStep(s, id, a)
    case Api(t, a) => OpStep(s, t, a)
    case Loop(a) => LoopStep(s, a)
    case Spawn(kind, n) => s.(ops := s.ops + [Op(kind, n, FirstPc(kind), 0, None, None)])
    case Arm(n) => s.(comp := s.comp.(armed := s.comp.armed + {n}))
    case Disarm(n) => s.(comp := s.comp.(armed := s.comp.armed - {n}))
  }

  /** The project before anything is launched; `defined` and `armed` are as configured. */
  predicate Init(s: State) {
    && s.running == map[] && s.incs == [] && s.ops == []
    && s.co == Coalescing({}, map[], None)
    && s.comp == Completion(Booting, [], 0, s.comp.armed)
  }

  predicate Next(s: State, l: Label, s': State) {
    Enabled(s, l) && s' == Apply(s, l)
  }

  /** A run: `path[k]` is the state before step k, and `path` ends with the state after the last. */
  ghost predicate IsRun(path: seq<State>, labels: seq<Label>) {
    && |path| == |labels| + 1
    && Init(path[0])
    && forall k :: 0 <= k < |labels| ==> Next(path[k], labels[k], path[k + 1])
  }

  /** A run that takes one more step. */
  lemma Extend(path: seq<State>, labels: seq<Label>, l: Label)
    requires IsRun(path, labels) && Enabled(path[|labels|], l)
    ensures IsRun(path + [Apply(path[|labels|], l)], labels + [l])
  {
    hide Enabled, Apply;
    var path', labels' := path + [Apply(path[|labels|], l)], labels + [l];
    forall k | 0 <= k < |labels'| ensures Next(path'[k], labels'[k], path'[k + 1]) {
      if k < |labels| {
        assert path'[k] == path[k] && path'[k + 1] == path[k + 1] && labels'[k] == labels[k];
      }
    }
  }
}

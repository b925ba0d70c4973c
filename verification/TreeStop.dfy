/** Stopping a process tree: freeze the members found, walk again, until a walk finds no new one. Other
    processes run on between any two system calls. */
module TreeStop {
  import opened Common
  import opened ProcTree

  // ----- The other processes -----

  /** The process table, the processes whose environment carries the marker, and the next start token. */
  datatype Sys = Sys(procs: Table, carriers: set<Pid>, clock: nat)

  /** What a process that is not stopped can do; `generations` picks the ancestor that inherits the children. */
  datatype Act =
    | Fork(pid: Pid, child: Pid)
    | Exit(pid: Pid, generations: nat)
    | Reap(pid: Pid)
    | NewGroup(pid: Pid)

  predicate CanAct(s: Sys, pid: Pid) {
    pid in s.procs && !s.procs[pid].zombie && !s.procs[pid].stopped
  }

  function Up(procs: Table, pid: Pid, generations: nat): Pid
    decreases generations
  {
    if generations == 0 then pid
    else if pid !in procs then 1
    else Up(procs, procs[pid].ppid, generations - 1)
  }

  /** The children of an exiting process go to one of its live ancestors, or to process 1. */
  function Reaper(procs: Table, pid: Pid, generations: nat): Pid {
    var r := Up(procs, pid, generations);
    if r in procs && !procs[r].zombie && r != pid then r else 1
  }

  /** The effect of an act; one that is not possible has none. The numbers of the supervisor and its parent
      are not given to new processes. */
  function Apply(c: Context, s: Sys, a: Act): Sys {
    match a
    case Fork(pid, child) =>
      if CanAct(s, pid) && child !in s.procs && !Excluded(c, child) then
        var info := ProcInfo(pid, s.procs[pid].pgid, s.procs[pid].uid, s.clock, false, false);
        Sys(s.procs[child := info], if pid in s.carriers then s.carriers + {child}
                                    else s.carriers - {child}, s.clock + 1)
      else s
    case Exit(pid, generations) =>
      if CanAct(s, pid) && pid > 1 then s.(procs := Orphaned(s.procs, pid, Reaper(s.procs, pid, generations))) else s
    case Reap(pid) =>
      if pid in s.procs && s.procs[pid].zombie then s.(procs := s.procs - {pid}) else s
    case NewGroup(pid) =>
      if CanAct(s, pid) then s.(procs := s.procs[pid := s.procs[pid].(pgid := pid)]) else s
  }

  function Orphaned(procs: Table, pid: Pid, reaper: Pid): Table {
    map x | x in procs ::
      var info := if procs[x].ppid == pid then procs[x].(ppid := reaper) else procs[x];
      if x == pid then info.(zombie := true) else info
  }

  function Run(c: Context, s: Sys, acts: seq<Act>): Sys
    decreases |acts|
  {
    if acts == [] then s else Run(c, Apply(c, s, acts[0]), acts[1..])
  }

  // ----- What always holds -----

  /** Start tokens are in the past, and what has exited has no children. */
  ghost predicate SysOk(s: Sys) {
    && (forall x :: x in s.procs ==> s.procs[x].start < s.clock)
    && (forall x :: x in s.procs && s.procs[x].ppid in s.procs ==> !s.procs[s.procs[x].ppid].zombie)
    && (1 in s.procs ==> !s.procs[1].zombie)
  }

  /** Remembered tokens are in the past, and remembered answers about the marker are right. */
  ghost predicate MemOk(mem: Memory, s: Sys) {
    && (forall x :: x in mem.known ==> mem.known[x] < s.clock)
    && (mem.rootStart.Some? ==> mem.rootStart.value < s.clock)
    && (forall k :: k in mem.marked ==> k.start < s.clock)
    && (forall x :: x in s.procs && Key(x, s.procs[x].start) in mem.marked ==>
          mem.marked[Key(x, s.procs[x].start)] == (x in s.carriers))
  }

  /** By when the holder of a number on record is known to be stopped: right after the SIGSTOP sent to that number;
      for a process that was found stopped, right after its own creation. */
  function Since(frozen: map<Pid, ProcInfo>, sent: map<Pid, nat>, x: Pid): nat
    requires x in frozen && (frozen[x].stopped || x in sent)
  {
    if frozen[x].stopped then frozen[x].start + 1 else sent[x]
  }

  /** Freezing, number by number: whoever has a number on record is stopped if and only if it was created before; and
      the process that was recorded was. `sent` is the clock right after each SIGSTOP. */
  ghost predicate FrozenOk(frozen: map<Pid, ProcInfo>, sent: map<Pid, nat>, s: Sys) {
    forall x :: x in frozen ==>
      && (frozen[x].stopped || x in sent) && frozen[x].start < Since(frozen, sent, x) <= s.clock
      && (x in s.procs && !s.procs[x].zombie ==>
            (s.procs[x].stopped <==> s.procs[x].start < Since(frozen, sent, x)))
  }

  /** Whoever is stopped before is still there, and still stopped, afterwards; but for the ones let go. */
  ghost predicate StayStopped(before: Table, after: Table, letGo: set<Pid>) {
    forall x :: x in before && before[x].stopped && !before[x].zombie && x !in letGo ==>
      x in after && after[x].start == before[x].start && after[x].stopped && !after[x].zombie
  }

  lemma ApplyKeeps(c: Context, s: Sys, a: Act, mem: Memory)
    requires SysOk(s) && MemOk(mem, s)
    ensures SysOk(Apply(c, s, a)) && MemOk(mem, Apply(c, s, a))
  {
  }

  lemma ApplyKeepsFrozen(c: Context, s: Sys, a: Act, frozen: map<Pid, ProcInfo>, sent: map<Pid, nat>)
    requires FrozenOk(frozen, sent, s)
    ensures FrozenOk(frozen, sent, Apply(c, s, a))
    ensures StillThere(frozen, Apply(c, s, a)) == StillThere(frozen, s)
  {
    hide Reaper;
  }

  lemma ApplyKeepsStopped(c: Context, s: Sys, a: Act)
    ensures StayStopped(s.procs, Apply(c, s, a).procs, {}) && s.clock <= Apply(c, s, a).clock
  {
    hide Reaper;
  }

  /** The numbers on record whose process is still there. */
  function StillThere(frozen: map<Pid, ProcInfo>, s: Sys): set<Pid> {
    set x | x in frozen && x in s.procs && s.procs[x].start == frozen[x].start && !s.procs[x].zombie
  }

  /** Whatever others do, a process that is stopped stays, and so does everybody on record: none of them leaves,
      and nobody who gets a number later is taken for the one recorded. */
  lemma {:induction false} RunKeepsFrozen(c: Context, s: Sys, acts: seq<Act>, frozen: map<Pid, ProcInfo>,
                                          sent: map<Pid, nat>)
    requires FrozenOk(frozen, sent, s)
    ensures FrozenOk(frozen, sent, Run(c, s, acts)) && StillThere(frozen, Run(c, s, acts)) == StillThere(frozen, s)
    ensures StayStopped(s.procs, Run(c, s, acts).procs, {}) && s.clock <= Run(c, s, acts).clock
    decreases |acts|
  {
    if acts != [] {
      ApplyKeepsFrozen(c, s, acts[0], frozen, sent);
      ApplyKeepsStopped(c, s, acts[0]);
      RunKeepsFrozen(c, Apply(c, s, acts[0]), acts[1..], frozen, sent);
    }
  }

  // ----- A frozen tree -----

  ghost predicate MembersAre(c: Context, mem: Memory, s: Sys, members: set<Pid>) {
    forall x :: x in members <==> IsMember(c, s.procs, Seeds(c, mem, s.procs, s.carriers), x)
  }

  /** The supervisor, its parent and process 1 stay out of the tree: none carries the marker, is in the root's
      group or is the child of a member. */
  ghost predicate OutsidersOk(c: Context, mem: Memory, s: Sys, members: set<Pid>) {
    forall x :: x in s.procs && Excluded(c, x) ==>
      s.procs[x].ppid !in members && x !in s.carriers && x !in RootSeeds(c, mem.rootStart, s.procs)
  }

  /** Every member is stopped and known, and the root has been seen. */
  ghost predicate AllFrozen(mem: Memory, s: Sys, members: set<Pid>) {
    && mem.rootStart.Some?
    && (forall x :: x in members ==> x in s.procs && s.procs[x].stopped && !s.procs[x].zombie
                                     && StillKnown(mem.known, s.procs, x))
  }

  ghost predicate Closed(c: Context, mem: Memory, s: Sys, members: set<Pid>) {
    && (forall x :: x in members ==> Eligible(c, s.procs, x))
    && (forall x :: x in Seeds(c, mem, s.procs, s.carriers) && Eligible(c, s.procs, x) ==> x in members)
    && (forall x :: Eligible(c, s.procs, x) && s.procs[x].ppid in members ==> x in members)
  }

  ghost predicate FrozenTree(c: Context, mem: Memory, s: Sys, members: set<Pid>) {
    && !Excluded(c, c.root) && SysOk(s) && MemOk(mem, s)
    && Closed(c, mem, s, members) && AllFrozen(mem, s, members) && OutsidersOk(c, mem, s, members)
  }

  lemma ClosedMeansMembers(c: Context, mem: Memory, s: Sys, members: set<Pid>)
    requires Closed(c, mem, s, members) && forall x :: x in members ==> StillKnown(mem.known, s.procs, x)
    ensures MembersAre(c, mem, s, members)
  {
    var seeds := Seeds(c, mem, s.procs, s.carriers);
    forall x ensures x in members <==> IsMember(c, s.procs, seeds, x) {
      if x in members {
        SeedIsMember(c, s.procs, seeds, x);
      } else if IsMember(c, s.procs, seeds, x) {
        var w :| IsLine(c, s.procs, seeds, w) && w[|w| - 1] == x;
        MembersInside(c, s.procs, seeds, members, w);
      }
    }
  }

  /** No ancestor of a process outside the frozen tree is inside, so orphans from outside stay outside. */
  lemma {:induction false} AncestorsStayOutside(c: Context, mem: Memory, s: Sys, members: set<Pid>, x: Pid,
                                                generations: nat)
    requires FrozenTree(c, mem, s, members) && x !in members && (x in s.procs ==> !s.procs[x].zombie)
    ensures Up(s.procs, x, generations) !in members
    decreases generations
  {
    if generations > 0 && x in s.procs {
      assert s.procs[x].ppid !in members;
      AncestorsStayOutside(c, mem, s, members, s.procs[x].ppid, generations - 1);
    }
  }

  lemma RootSeedsOnlyShrink(c: Context, mem: Memory, s: Sys, a: Act, members: set<Pid>)
    requires FrozenTree(c, mem, s, members)
    ensures RootSeeds(c, mem.rootStart, Apply(c, s, a).procs) <= RootSeeds(c, mem.rootStart, s.procs)
  {
    var s' := Apply(c, s, a);
    forall x | x in RootSeeds(c, mem.rootStart, s'.procs) ensures x in RootSeeds(c, mem.rootStart, s.procs) {
      if a.Fork? && s' != s {
        assert a.pid !in members && a.pid !in RootSeeds(c, mem.rootStart, s.procs);
      }
    }
  }

  lemma OtherSeedsOnlyShrink(c: Context, mem: Memory, s: Sys, a: Act, members: set<Pid>, x: Pid)
    requires FrozenTree(c, mem, s, members)
    requires x in Seeds(c, mem, Apply(c, s, a).procs, Apply(c, s, a).carriers)
    requires x !in RootSeeds(c, mem.rootStart, Apply(c, s, a).procs)
    ensures x in Seeds(c, mem, s.procs, s.carriers)
  {
    hide RootSeeds, Reaper;
  }

  lemma SeedsOnlyShrink(c: Context, mem: Memory, s: Sys, a: Act, members: set<Pid>)
    requires FrozenTree(c, mem, s, members)
    ensures Seeds(c, mem, Apply(c, s, a).procs, Apply(c, s, a).carriers) <= Seeds(c, mem, s.procs, s.carriers)
  {
    RootSeedsOnlyShrink(c, mem, s, a, members);
    var s' := Apply(c, s, a);
    forall x | x in Seeds(c, mem, s'.procs, s'.carriers) ensures x in Seeds(c, mem, s.procs, s.carriers) {
      if x !in RootSeeds(c, mem.rootStart, s'.procs) {
        OtherSeedsOnlyShrink(c, mem, s, a, members, x);
      }
    }
  }

  /** No act makes a process a child of a member. */
  lemma NoNewChildren(c: Context, mem: Memory, s: Sys, a: Act, members: set<Pid>, x: Pid)
    requires FrozenTree(c, mem, s, members)
    requires x in Apply(c, s, a).procs && Apply(c, s, a).procs[x].ppid in members
    ensures x in s.procs && s.procs[x].ppid in members
    ensures s.procs[x].zombie ==> Apply(c, s, a).procs[x].zombie
  {
    hide Seeds, RootSeeds, MemOk, Up;
    if a.Exit? && CanAct(s, a.pid) {
      AncestorsStayOutside(c, mem, s, members, a.pid, a.generations);
    }
  }

  lemma MembersUntouched(c: Context, mem: Memory, s: Sys, a: Act, members: set<Pid>)
    requires FrozenTree(c, mem, s, members)
    ensures AllFrozen(mem, Apply(c, s, a), members)
    ensures forall x :: x in members ==> Eligible(c, Apply(c, s, a).procs, x)
  {
    hide Seeds, RootSeeds, MemOk, SysOk, Reaper;
  }

  lemma OutsidersStay(c: Context, mem: Memory, s: Sys, a: Act, members: set<Pid>)
    requires FrozenTree(c, mem, s, members)
    ensures OutsidersOk(c, mem, Apply(c, s, a), members)
  {
    RootSeedsOnlyShrink(c, mem, s, a, members);
    hide Seeds, RootSeeds, MemOk, SysOk, Reaper;
    var s' := Apply(c, s, a);
    forall x | x in s'.procs && Excluded(c, x)
      ensures s'.procs[x].ppid !in members && x !in s'.carriers && x !in RootSeeds(c, mem.rootStart, s'.procs)
    {
      if s'.procs[x].ppid in members { NoNewChildren(c, mem, s, a, members, x); }
    }
  }

  /** Whatever the others do, the tree stays as it is. */
  lemma ApplyStaysOutside(c: Context, mem: Memory, s: Sys, a: Act, members: set<Pid>)
    requires FrozenTree(c, mem, s, members)
    ensures FrozenTree(c, mem, Apply(c, s, a), members)
  {
    var s' := Apply(c, s, a);
    ApplyKeeps(c, s, a, mem);
    MembersUntouched(c, mem, s, a, members);
    OutsidersStay(c, mem, s, a, members);
    SeedsOnlyShrink(c, mem, s, a, members);
    hide Seeds, RootSeeds, MemOk, SysOk, Apply, OutsidersOk, AllFrozen, Eligible;
    forall x | Eligible(c, s'.procs, x) && s'.procs[x].ppid in members ensures x in members {
      ChildStaysMember(c, mem, s, a, members, x);
    }
  }

  lemma ChildStaysMember(c: Context, mem: Memory, s: Sys, a: Act, members: set<Pid>, x: Pid)
    requires FrozenTree(c, mem, s, members)
    requires Eligible(c, Apply(c, s, a).procs, x) && Apply(c, s, a).procs[x].ppid in members
    ensures x in members
  {
    NoNewChildren(c, mem, s, a, members, x);
    hide Seeds, RootSeeds, MemOk, SysOk, Apply, OutsidersOk, AllFrozen;
  }

  /** Another walk over the frozen tree finds the same members and leaves it frozen as far as it remembers. */
  lemma WalkFindsNoMore(c: Context, mem: Memory, s: Sys, members: set<Pid>, mem': Memory)
    requires FrozenTree(c, mem, s, members)
    requires Remembers(c, mem, s.procs, s.carriers, members, mem')
    ensures FrozenTree(c, mem', s, members)
  {
    RootAsBefore(c, mem, s, members, mem');
    WalkSeeds(c, mem, s, members, mem');
    WalkMemOk(c, mem, s, members, mem');
    assert forall x :: x in members ==> StillKnown(mem'.known, s.procs, x);
    hide Seeds, RootSeeds, MemOk, SysOk, Remembers;
  }

  lemma RootAsBefore(c: Context, mem: Memory, s: Sys, members: set<Pid>, mem': Memory)
    requires Remembers(c, mem, s.procs, s.carriers, members, mem')
    ensures RootSeeds(c, mem'.rootStart, s.procs) == RootSeeds(c, mem.rootStart, s.procs)
  {
  }

  /** What a walk remembers makes nothing a seed that was not one, or a member. */
  lemma WalkSeeds(c: Context, mem: Memory, s: Sys, members: set<Pid>, mem': Memory)
    requires MemOk(mem, s) && Remembers(c, mem, s.procs, s.carriers, members, mem')
    ensures forall x :: x in Seeds(c, mem', s.procs, s.carriers) ==>
            x in Seeds(c, mem, s.procs, s.carriers) || x in members
  {
    RootAsBefore(c, mem, s, members, mem');
    hide RootSeeds;
    forall x | x in s.procs
      ensures IsMarked(mem'.marked, s.procs, s.carriers, x) == IsMarked(mem.marked, s.procs, s.carriers, x)
    {
      assert Key(x, s.procs[x].start).pid == x;
    }
    forall x | x in Seeds(c, mem', s.procs, s.carriers)
      ensures x in Seeds(c, mem, s.procs, s.carriers) || x in members
    {
    }
  }

  lemma WalkMemOk(c: Context, mem: Memory, s: Sys, members: set<Pid>, mem': Memory)
    requires SysOk(s) && MemOk(mem, s) && Remembers(c, mem, s.procs, s.carriers, members, mem')
    ensures MemOk(mem', s)
  {
    hide RootSeeds;
    forall x | x in s.procs && Key(x, s.procs[x].start) in mem'.marked
      ensures mem'.marked[Key(x, s.procs[x].start)] == (x in s.carriers)
    {
      assert Key(x, s.procs[x].start).pid == x;
    }
  }

  /** Nobody is left to be found by another walk over the same table. */
  lemma WalkIsClosed(c: Context, mem: Memory, s: Sys, members: set<Pid>, mem': Memory)
    requires MemOk(mem, s) && MembersAre(c, mem, s, members)
    requires Remembers(c, mem, s.procs, s.carriers, members, mem')
    requires forall x :: x in members ==> Eligible(c, s.procs, x)
    ensures Closed(c, mem', s, members) && forall x :: x in members ==> StillKnown(mem'.known, s.procs, x)
    ensures MembersAre(c, mem', s, members)
  {
    WalkSeeds(c, mem, s, members, mem');
    var seeds := Seeds(c, mem, s.procs, s.carriers);
    assert forall x :: x in members ==> StillKnown(mem'.known, s.procs, x);
    hide Seeds, RootSeeds, MemOk, Remembers;
    forall x | Eligible(c, s.procs, x) && x in seeds ensures x in members {
      SeedIsMember(c, s.procs, seeds, x);
    }
    forall x | Eligible(c, s.procs, x) && s.procs[x].ppid in members ensures x in members {
      ChildIsMember(c, s.procs, seeds, x);
    }
    ClosedMeansMembers(c, mem', s, members);
  }

  /** A walk all of whose members are stopped has reached the fixed point. */
  lemma WalkReachesFixedPoint(c: Context, mem: Memory, s: Sys, members: set<Pid>, mem': Memory)
    requires !Excluded(c, c.root) && SysOk(s) && MemOk(mem, s)
    requires MembersAre(c, mem, s, members) && Remembers(c, mem, s.procs, s.carriers, members, mem')
    requires mem'.rootStart.Some? && OutsidersOk(c, mem', s, members)
    requires forall x :: x in members ==> Eligible(c, s.procs, x) && s.procs[x].stopped
    ensures FrozenTree(c, mem', s, members)
  {
    WalkMemOk(c, mem, s, members, mem');
    WalkIsClosed(c, mem, s, members, mem');
    hide Seeds, RootSeeds, MemOk, SysOk, Remembers, Closed;
  }

  /** The fixed point: once it is reached, in every later state any walk finds exactly the members already
      frozen, and each of them is still the process that was frozen. */
  lemma {:induction false} FrozenTreeStays(c: Context, mem: Memory, s: Sys, acts: seq<Act>, members: set<Pid>)
    requires FrozenTree(c, mem, s, members)
    ensures FrozenTree(c, mem, Run(c, s, acts), members)
    ensures MembersAre(c, mem, Run(c, s, acts), members)
    ensures forall x :: x in members ==>
              x in Run(c, s, acts).procs && Run(c, s, acts).procs[x].start == mem.known[x]
              && Run(c, s, acts).procs[x].stopped && !Run(c, s, acts).procs[x].zombie
    decreases |acts|
  {
    ClosedMeansMembers(c, mem, s, members);
    if acts != [] {
      ApplyStaysOutside(c, mem, s, acts[0], members);
      FrozenTreeStays(c, mem, Apply(c, s, acts[0]), acts[1..], members);
    }
  }

  // ----- Who is on record -----

  /** Whoever is on record and still the same live process is remembered by the walks. */
  ghost predicate RecordsKnown(c: Context, mem: Memory, frozen: map<Pid, ProcInfo>, s: Sys) {
    forall x :: x in frozen ==> !Excluded(c, x) && (x in StillThere(frozen, s) ==> StillKnown(mem.known, s.procs, x))
  }

  /** What holds of the system, the memory and the record between two calls of a stop. */
  ghost predicate StopOk(c: Context, s: Sys, mem: Memory, frozen: map<Pid, ProcInfo>, sent: map<Pid, nat>) {
    SysOk(s) && MemOk(mem, s) && FrozenOk(frozen, sent, s) && RecordsKnown(c, mem, frozen, s)
  }

  lemma RecordsStayKnown(c: Context, mem: Memory, frozen: map<Pid, ProcInfo>, s: Sys, s': Sys)
    requires RecordsKnown(c, mem, frozen, s) && StillThere(frozen, s') <= StillThere(frozen, s)
    ensures RecordsKnown(c, mem, frozen, s')
  {
  }

  lemma {:induction false} RunKeeps(c: Context, s: Sys, acts: seq<Act>, mem: Memory)
    requires SysOk(s) && MemOk(mem, s)
    ensures SysOk(Run(c, s, acts)) && MemOk(mem, Run(c, s, acts))
    decreases |acts|
  {
    if acts != [] {
      ApplyKeeps(c, s, acts[0], mem);
      RunKeeps(c, Apply(c, s, acts[0]), acts[1..], mem);
    }
  }

  ghost predicate Halted(s: Sys, members: set<Pid>) {
    forall x :: x in members ==> x in s.procs && s.procs[x].stopped
  }

  /** No member was created after the SIGSTOP to its number. */
  ghost predicate InTime(s: Sys, members: set<Pid>, frozen: map<Pid, ProcInfo>, sent: map<Pid, nat>) {
    forall x :: x in members ==>
      x in s.procs && x in frozen && (frozen[x].stopped || x in sent) && s.procs[x].start < Since(frozen, sent, x)
  }

  /** The members that are not the process on record under their number. */
  function Replaced(frozen: map<Pid, ProcInfo>, s: Sys, members: set<Pid>): set<Pid> {
    set x | x in members && !(x in frozen && x in s.procs && s.procs[x].start == frozen[x].start)
  }

  /** The root has been seen, and the supervisor, its parent and process 1 are apart from the tree. */
  ghost predicate Apart(c: Context, mem: Memory, s: Sys, members: set<Pid>) {
    !Excluded(c, c.root) && mem.rootStart.Some? && OutsidersOk(c, mem, s, members)
  }

  /** A walk remembers everybody on record who is still there. */
  lemma WalkKeepsRecords(c: Context, mem: Memory, s: Sys, members: set<Pid>, mem': Memory, frozen: map<Pid, ProcInfo>)
    requires Remembers(c, mem, s.procs, s.carriers, members, mem') && RecordsKnown(c, mem, frozen, s)
    ensures RecordsKnown(c, mem', frozen, s)
  {
    hide RootSeeds;
  }

  // ----- Freezing the members of one walk -----

  function NextActs(c: Context, s: Sys, script: seq<seq<Act>>): Sys {
    if script == [] then s else Run(c, s, script[0])
  }

  function Stopped(s: Sys, pid: Pid): Sys {
    if pid in s.procs && !s.procs[pid].zombie
    then s.(procs := s.procs[pid := s.procs[pid].(stopped := true)]) else s
  }

  /** The system, what others are going to do, who is on record, and when each SIGSTOP was sent. */
  datatype Frozen = Frozen(state: Sys, script: seq<seq<Act>>, record: map<Pid, ProcInfo>, sent: map<Pid, nat>)

  /** What freezing the members of a walk comes to, in order: who is not on record yet is recorded as the walk's
      snapshot shows it, and stopped unless it was stopped then. Others act before each signal as scripted. */
  function FreezeAll(c: Context, procs: Table, found: seq<Pid>, before: Frozen): Frozen
    requires forall x :: x in found ==> x in procs
  {
    if found == [] then before
    else
      var n := |found| - 1;
      assert forall x :: x in found[..n] ==> x in found;
      FreezeOne(c, procs, found[n], FreezeAll(c, procs, found[..n], before))
  }

  function FreezeOne(c: Context, procs: Table, pid: Pid, f: Frozen): Frozen
    requires pid in procs
  {
    if pid in f.record then f
    else Recorded(if procs[pid].stopped then f else Sent(c, f, pid), pid, procs[pid])
  }

  function Sent(c: Context, f: Frozen, pid: Pid): Frozen {
    var s := Stopped(NextActs(c, f.state, f.script), pid);
    f.(state := s, script := if f.script == [] then [] else f.script[1..], sent := f.sent[pid := s.clock])
  }

  function Recorded(f: Frozen, pid: Pid, info: ProcInfo): Frozen {
    f.(record := f.record[pid := info])
  }

  // ----- Two runs in which a number is given away -----

  lemma InTurn(c: Context, procs: Table, x: Pid, y: Pid, f: Frozen)
    requires c.root in procs && x in procs && y in procs
    ensures FreezeAll(c, procs, [c.root, x, y], f) ==
            FreezeOne(c, procs, y, FreezeOne(c, procs, x, FreezeOne(c, procs, c.root, f)))
  {
    hide FreezeOne;
    var found := [c.root, x, y];
    assert found[..2] == [c.root, x] && [c.root, x][..1] == [c.root] && [c.root][..0] == [];
    assert FreezeAll(c, procs, [c.root], f) == FreezeOne(c, procs, c.root, FreezeAll(c, procs, [], f));
    assert FreezeAll(c, procs, [c.root, x], f) == FreezeOne(c, procs, x, FreezeAll(c, procs, [c.root], f));
  }

  /** A process without children exits and is reaped. */
  lemma GoneIs(c: Context, s: Sys, x: Pid)
    requires CanAct(s, x) && x > 1 && forall p :: p in s.procs ==> s.procs[p].ppid != x
    ensures Run(c, s, [Exit(x, 0), Reap(x)]) == s.(procs := s.procs - {x})
  {
    var acts := [Exit(x, 0), Reap(x)];
    assert acts[1..] == [Reap(x)] && [Reap(x)][1..] == [];
    var s1 := Apply(c, s, acts[0]);
    assert s1.procs - {x} == s.procs - {x};
    assert Run(c, s1, [Reap(x)]) == Run(c, Apply(c, s1, Reap(x)), []);
  }

  /** The same, and then another process forks a child that gets the number. */
  lemma TakenOverIs(c: Context, s: Sys, x: Pid, y: Pid)
    requires CanAct(s, x) && x > 1 && forall p :: p in s.procs ==> s.procs[p].ppid != x
    ensures Run(c, s, [Exit(x, 0), Reap(x), Fork(y, x)]) == Apply(c, s.(procs := s.procs - {x}), Fork(y, x))
  {
    var acts := [Exit(x, 0), Reap(x), Fork(y, x)];
    assert acts[1..] == [Reap(x), Fork(y, x)] && [Reap(x), Fork(y, x)][1..] == [Fork(y, x)] && [Fork(y, x)][1..] == [];
    var s1 := Apply(c, s, acts[0]);
    var s2 := Apply(c, s1, Reap(x));
    assert s2.procs == s.procs - {x};
    assert Run(c, s1, [Reap(x), Fork(y, x)]) == Run(c, s2, [Fork(y, x)]) == Run(c, Apply(c, s2, Fork(y, x)), []);
  }

  lemma ThreeMembers(c: Context, procs: Table, x: Pid, y: Pid)
    requires Eligible(c, procs, c.root) && Eligible(c, procs, x) && Eligible(c, procs, y)
    requires procs[y].ppid == c.root && (procs[x].ppid == c.root || procs[x].ppid == y)
    ensures IsMember(c, procs, {c.root}, c.root) && IsMember(c, procs, {c.root}, x) && IsMember(c, procs, {c.root}, y)
  {
    SeedIsMember(c, procs, {c.root}, c.root);
    ChildIsMember(c, procs, {c.root}, y);
    ChildIsMember(c, procs, {c.root}, x);
  }

  const ROOT_INFO := ProcInfo(1, 0, 0, 0, false, false)

  function ChildInfo(c: Context): ProcInfo {
    ProcInfo(c.root, 0, 0, 1, false, false)
  }

  /** A root with two children, and what other processes do before each of the three signals. */
  function Before(c: Context, x: Pid, y: Pid, script: seq<seq<Act>>): Frozen {
    Frozen(Sys(map[c.root := ROOT_INFO, x := ChildInfo(c), y := ChildInfo(c)], {}, 2), script, map[], map[])
  }

  /** The number of x is given away after its signal has found nobody. */
  function LateReuse(x: Pid, y: Pid): seq<seq<Act>> {
    [[], [Exit(x, 0), Reap(x)], [Fork(y, x)]]
  }

  /** The number of x is given away before its signal. */
  function EarlyReuse(x: Pid, y: Pid): seq<seq<Act>> {
    [[], [Exit(x, 0), Reap(x), Fork(y, x)], []]
  }

  function RootFrozen(c: Context, x: Pid, y: Pid, script: seq<seq<Act>>): Frozen {
    Frozen(Sys(map[c.root := ROOT_INFO.(stopped := true), x := ChildInfo(c), y := ChildInfo(c)], {}, 2),
           script, map[c.root := ROOT_INFO], map[c.root := 2])
  }

  function ChildGone(c: Context, x: Pid, y: Pid): Frozen {
    Frozen(Sys(map[c.root := ROOT_INFO.(stopped := true), y := ChildInfo(c)], {}, 2),
           [[Fork(y, x)]], map[c.root := ROOT_INFO, x := ChildInfo(c)], map[c.root := 2, x := 2])
  }

  /** How the first run ends: the new holder of the number, a child of y, is running. */
  function NumberReused(c: Context, x: Pid, y: Pid): Frozen {
    Frozen(Sys(map[c.root := ROOT_INFO.(stopped := true), y := ChildInfo(c).(stopped := true),
                   x := ProcInfo(y, 0, 0, 2, false, false)], {}, 3),
           [], map[c.root := ROOT_INFO, x := ChildInfo(c), y := ChildInfo(c)], map[c.root := 2, x := 2, y := 3])
  }

  function HolderFrozen(c: Context, x: Pid, y: Pid): Frozen {
    Frozen(Sys(map[c.root := ROOT_INFO.(stopped := true), y := ChildInfo(c), x := ProcInfo(y, 0, 0, 2, true, false)],
               {}, 3),
           [[]], map[c.root := ROOT_INFO, x := ChildInfo(c)], map[c.root := 2, x := 3])
  }

  /** How the second run ends: all three are stopped. */
  function AllStopped(c: Context, x: Pid, y: Pid): Frozen {
    Frozen(Sys(map[c.root := ROOT_INFO.(stopped := true), y := ChildInfo(c).(stopped := true),
                   x := ProcInfo(y, 0, 0, 2, true, false)], {}, 3),
           [], map[c.root := ROOT_INFO, x := ChildInfo(c), y := ChildInfo(c)], map[c.root := 2, x := 3, y := 3])
  }

  predicate ThreeNumbers(c: Context, x: Pid, y: Pid) {
    && !Excluded(c, c.root) && !Excluded(c, x) && !Excluded(c, y) && x != y && x != c.root && y != c.root
  }

  lemma FreezesRoot(c: Context, x: Pid, y: Pid, script: seq<seq<Act>>)
    requires ThreeNumbers(c, x, y) && |script| > 0 && script[0] == []
    ensures var f := Before(c, x, y, script);
            FreezeOne(c, f.state.procs, c.root, f) == RootFrozen(c, x, y, script[1..])
  {
  }

  lemma MissesChild(c: Context, x: Pid, y: Pid)
    requires ThreeNumbers(c, x, y)
    ensures FreezeOne(c, Before(c, x, y, []).state.procs, x, RootFrozen(c, x, y, LateReuse(x, y)[1..])) ==
            ChildGone(c, x, y)
  {
    var f := RootFrozen(c, x, y, LateReuse(x, y)[1..]);
    assert f.script[1..] == [[Fork(y, x)]];
    GoneIs(c, f.state, x);
    assert f.state.procs - {x} == ChildGone(c, x, y).state.procs;
    hide Run;
  }

  lemma FreezesBrother(c: Context, x: Pid, y: Pid)
    requires ThreeNumbers(c, x, y)
    ensures FreezeOne(c, Before(c, x, y, []).state.procs, y, ChildGone(c, x, y)) == NumberReused(c, x, y)
  {
    var s, acts := ChildGone(c, x, y).state, [Fork(y, x)];
    assert acts[1..] == [];
    assert Run(c, s, acts) == Apply(c, s, Fork(y, x));
  }

  lemma FreezesHolder(c: Context, x: Pid, y: Pid)
    requires ThreeNumbers(c, x, y)
    ensures FreezeOne(c, Before(c, x, y, []).state.procs, x, RootFrozen(c, x, y, EarlyReuse(x, y)[1..])) ==
            HolderFrozen(c, x, y)
  {
    var f := RootFrozen(c, x, y, EarlyReuse(x, y)[1..]);
    assert f.script[1..] == [[]];
    TakenOverIs(c, f.state, x, y);
    assert f.state.procs - {x} == map[c.root := ROOT_INFO.(stopped := true), y := ChildInfo(c)];
    hide Run;
  }

  lemma FreezesOther(c: Context, x: Pid, y: Pid)
    requires ThreeNumbers(c, x, y)
    ensures FreezeOne(c, Before(c, x, y, []).state.procs, y, HolderFrozen(c, x, y)) == AllStopped(c, x, y)
  {
  }

  /** The three processes are all there is, and all of them are members of the tree. */
  ghost predicate WholeTree(c: Context, procs: Table, x: Pid, y: Pid) {
    && procs.Keys == {c.root, x, y}
    && forall p :: p in procs ==> Eligible(c, procs, p) && IsMember(c, procs, {c.root}, p)
  }

  lemma TreeBefore(c: Context, x: Pid, y: Pid, script: seq<seq<Act>>)
    requires ThreeNumbers(c, x, y)
    ensures WholeTree(c, Before(c, x, y, script).state.procs, x, y) && SysOk(Before(c, x, y, script).state)
  {
    hide IsMember;
    ThreeMembers(c, Before(c, x, y, script).state.procs, x, y);
  }

  lemma TreeAfter(c: Context, x: Pid, y: Pid)
    requires ThreeNumbers(c, x, y)
    ensures WholeTree(c, NumberReused(c, x, y).state.procs, x, y)
    ensures WholeTree(c, AllStopped(c, x, y).state.procs, x, y)
  {
    hide IsMember;
    ThreeMembers(c, NumberReused(c, x, y).state.procs, x, y);
    ThreeMembers(c, AllStopped(c, x, y).state.procs, x, y);
  }

  lemma LateReuseInTurn(c: Context, x: Pid, y: Pid)
    requires ThreeNumbers(c, x, y)
    ensures var f := Before(c, x, y, LateReuse(x, y));
            FreezeAll(c, f.state.procs, [c.root, x, y], f) == NumberReused(c, x, y)
  {
    hide RootFrozen, ChildGone, NumberReused, FreezeOne, FreezeAll;
    var f := Before(c, x, y, LateReuse(x, y));
    FreezesRoot(c, x, y, f.script);
    MissesChild(c, x, y);
    FreezesBrother(c, x, y);
    InTurn(c, f.state.procs, x, y, f);
  }

  lemma EarlyReuseInTurn(c: Context, x: Pid, y: Pid)
    requires ThreeNumbers(c, x, y)
    ensures var f := Before(c, x, y, EarlyReuse(x, y));
            FreezeAll(c, f.state.procs, [c.root, x, y], f) == AllStopped(c, x, y)
  {
    hide RootFrozen, HolderFrozen, AllStopped, FreezeOne, FreezeAll;
    var f := Before(c, x, y, EarlyReuse(x, y));
    FreezesRoot(c, x, y, f.script);
    FreezesHolder(c, x, y);
    FreezesOther(c, x, y);
    InTurn(c, f.state.procs, x, y, f);
  }

  /** One walk over a tree of three freezes its members in turn; the three are still all there is, and on record. */
  ghost predicate IsRun(c: Context, x: Pid, y: Pid, before: Frozen, after: Frozen) {
    && SysOk(before.state) && WholeTree(c, before.state.procs, x, y)
    && FreezeAll(c, before.state.procs, [c.root, x, y], before) == after
    && WholeTree(c, after.state.procs, x, y) && after.record.Keys == {c.root, x, y} == after.sent.Keys
  }

  ghost predicate Escaped(f: Frozen, x: Pid) {
    && x in f.state.procs && x in f.sent && f.state.procs[x].start >= f.sent[x]
    && !f.state.procs[x].stopped && !f.state.procs[x].zombie
  }

  ghost predicate AllInTime(f: Frozen) {
    Halted(f.state, f.state.procs.Keys) && InTime(f.state, f.state.procs.Keys, f.record, f.sent)
  }

  function There(f: Frozen): set<Pid> {
    StillThere(f.record, f.state)
  }

  lemma LateEnd(c: Context, x: Pid, y: Pid)
    requires ThreeNumbers(c, x, y)
    ensures Escaped(NumberReused(c, x, y), x)
    ensures NumberReused(c, x, y).record.Keys == {c.root, x, y} == NumberReused(c, x, y).sent.Keys
  {
  }

  lemma EarlyEnd(c: Context, x: Pid, y: Pid)
    requires ThreeNumbers(c, x, y)
    ensures AllInTime(AllStopped(c, x, y)) && There(AllStopped(c, x, y)) == {c.root, y}
    ensures AllStopped(c, x, y).record.Keys == {c.root, x, y} == AllStopped(c, x, y).sent.Keys
  {
    var f := AllStopped(c, x, y);
    assert forall p :: p in f.state.procs <==> p == c.root || p == x || p == y;
  }

  /** A number given away after its signal found nobody escapes. Process x is a child of the root and exits before
      its turn; its number then goes to a child of its brother y before y's turn. Everybody is on record now, so the
      next walk finds no new member and the loop ends - with x running. */
  lemma ReusedNumberEscapes(c: Context, x: Pid, y: Pid)
    requires ThreeNumbers(c, x, y)
    ensures IsRun(c, x, y, Before(c, x, y, LateReuse(x, y)), NumberReused(c, x, y))
    ensures Escaped(NumberReused(c, x, y), x)
  {
    TreeBefore(c, x, y, LateReuse(x, y));
    TreeAfter(c, x, y);
    LateReuseInTurn(c, x, y);
    LateEnd(c, x, y);
    hide WholeTree, FreezeAll, SysOk, Before, NumberReused;
  }

  /** A number given away before its signal is frozen with its new holder: everybody is on record and stopped. But
      that holder is not the process on record, so it will be neither signalled nor resumed. */
  lemma NewHolderIsFrozen(c: Context, x: Pid, y: Pid)
    requires ThreeNumbers(c, x, y)
    ensures IsRun(c, x, y, Before(c, x, y, EarlyReuse(x, y)), AllStopped(c, x, y))
    ensures AllInTime(AllStopped(c, x, y)) && There(AllStopped(c, x, y)) == {c.root, y}
  {
    TreeBefore(c, x, y, EarlyReuse(x, y));
    TreeAfter(c, x, y);
    EarlyReuseInTurn(c, x, y);
    EarlyEnd(c, x, y);
    hide WholeTree, FreezeAll, SysOk, Before, AllStopped, There;
  }

  // ----- The signal -----

  /** The effect of a signal on a frozen process: SIGKILL ends it at once, any other waits until it continues. */
  function Signalled(s: Sys, pid: Pid, fatal: bool, generations: nat): Sys {
    if fatal && pid in s.procs && !s.procs[pid].zombie
    then s.(procs := Orphaned(s.procs, pid, Reaper(s.procs, pid, generations))) else s
  }

  /** What an exit does to the table: the process is gone but for its entry, and its children have another parent. */
  ghost predicate Ended(s: Sys, m: Pid, r: Pid, s': Sys) {
    && s'.carriers == s.carriers && s'.clock == s.clock && s'.procs.Keys == s.procs.Keys
    && r != m && (r in s.procs ==> !s.procs[r].zombie)
    && forall x :: x in s.procs ==>
         s'.procs[x] == s.procs[x].(ppid := if s.procs[x].ppid == m then r else s.procs[x].ppid,
                                    zombie := s.procs[x].zombie || x == m)
  }

  lemma SignalEnds(s: Sys, m: Pid, generations: nat)
    requires m in s.procs && !s.procs[m].zombie && m > 1 && (1 in s.procs ==> !s.procs[1].zombie)
    ensures Ended(s, m, Reaper(s.procs, m, generations), Signalled(s, m, true, generations))
  {
    hide Up;
  }

  lemma EndKeepsSys(s: Sys, m: Pid, r: Pid, s': Sys, mem: Memory)
    requires Ended(s, m, r, s') && SysOk(s) && MemOk(mem, s) && m > 1
    ensures SysOk(s') && MemOk(mem, s')
  {
  }

  lemma EndKeepsClosed(c: Context, mem: Memory, s: Sys, m: Pid, r: Pid, s': Sys, members: set<Pid>)
    requires Ended(s, m, r, s') && Closed(c, mem, s, members) && m in members
    requires Seeds(c, mem, s'.procs, s'.carriers) <= Seeds(c, mem, s.procs, s.carriers)
    ensures Closed(c, mem, s', members - {m})
  {
    hide Seeds, RootSeeds;
    assert forall x :: Eligible(c, s'.procs, x) <==> Eligible(c, s.procs, x) && x != m;
  }

  lemma EndKeepsFrozen(mem: Memory, s: Sys, m: Pid, r: Pid, s': Sys, members: set<Pid>)
    requires Ended(s, m, r, s') && AllFrozen(mem, s, members)
    ensures AllFrozen(mem, s', members - {m})
  {
  }

  lemma EndKeepsOutsiders(c: Context, mem: Memory, s: Sys, m: Pid, r: Pid, s': Sys, members: set<Pid>)
    requires Ended(s, m, r, s') && OutsidersOk(c, mem, s, members) && m in members
    requires RootSeeds(c, mem.rootStart, s'.procs) == RootSeeds(c, mem.rootStart, s.procs)
    ensures OutsidersOk(c, mem, s', members - {m})
  {
    hide RootSeeds;
  }

  lemma EndKeepsSeeds(c: Context, mem: Memory, s: Sys, m: Pid, r: Pid, s': Sys)
    requires Ended(s, m, r, s')
    ensures RootSeeds(c, mem.rootStart, s'.procs) == RootSeeds(c, mem.rootStart, s.procs)
    ensures Seeds(c, mem, s'.procs, s'.carriers) <= Seeds(c, mem, s.procs, s.carriers)
  {
    assert forall x :: x in s'.procs <==> x in s.procs;
    assert forall x :: x in s.procs ==> s'.procs[x].pgid == s.procs[x].pgid && s'.procs[x].start == s.procs[x].start;
    assert forall x :: x in RootSeeds(c, mem.rootStart, s'.procs) <==> x in RootSeeds(c, mem.rootStart, s.procs);
  }

  /** A frozen member that is killed leaves the others a frozen tree. */
  lemma KillKeepsTree(c: Context, mem: Memory, s: Sys, members: set<Pid>, m: Pid, fatal: bool, generations: nat)
    requires FrozenTree(c, mem, s, members) && m in members
    ensures FrozenTree(c, mem, Signalled(s, m, fatal, generations), if fatal then members - {m} else members)
  {
    if fatal {
      var r, s' := Reaper(s.procs, m, generations), Signalled(s, m, true, generations);
      SignalEnds(s, m, generations);
      hide Signalled, Ended, Reaper, Seeds, RootSeeds, SysOk, MemOk, OutsidersOk;
      EndKeepsSys(s, m, r, s', mem);
      EndKeepsSeeds(c, mem, s, m, r, s');
      EndKeepsClosed(c, mem, s, m, r, s', members);
      EndKeepsFrozen(mem, s, m, r, s', members);
      EndKeepsOutsiders(c, mem, s, m, r, s', members);
    }
  }

  lemma KillKeepsFrozen(frozen: map<Pid, ProcInfo>, sent: map<Pid, nat>, s: Sys, m: Pid, fatal: bool,
                        generations: nat)
    requires FrozenOk(frozen, sent, s)
    ensures var s' := Signalled(s, m, fatal, generations);
            && FrozenOk(frozen, sent, s') && StayStopped(s.procs, s'.procs, if fatal then {m} else {})
            && StillThere(frozen, s') == StillThere(frozen, s) - if fatal then {m} else {}
  {
    hide Reaper;
  }

  /** SIGCONT lets a stopped process run on. */
  function Continued(s: Sys, pid: Pid): Sys {
    if pid in s.procs && !s.procs[pid].zombie
    then s.(procs := s.procs[pid := s.procs[pid].(stopped := false)]) else s
  }

  lemma ContinueKeepsFrozen(frozen: map<Pid, ProcInfo>, sent: map<Pid, nat>, s: Sys, m: Pid)
    requires FrozenOk(frozen, sent, s)
    ensures var s' := Continued(s, m);
            && FrozenOk(frozen - {m}, sent, s') && StayStopped(s.procs, s'.procs, {m})
            && StillThere(frozen - {m}, s') == StillThere(frozen, s) - {m}
  {
  }

  // ----- The stop -----

  const MAX_TREE_WALKS := 10

  /** SIGKILL, one of the signals that stop a process, or any other. */
  datatype Signal = Sigkill | StopSignal | Other

  /** Someone a signal reached: the number, and the start token of the process that had it. */
  datatype Receiver = Receiver(pid: Pid, start: nat)

  function Holder(s: Sys, pid: Pid): multiset<Receiver> {
    if pid in s.procs && !s.procs[pid].zombie then multiset{Receiver(pid, s.procs[pid].start)} else multiset{}
  }

  /** The operating system: before every call it serves, the other processes act as the script says; `heirs` picks
      who inherits the children of a process that is killed. */
  class System {
    const c: Context
    const heirs: Pid -> nat
    var state: Sys
    var script: seq<seq<Act>>
    /** Who received the signal to deliver, and who SIGCONT. */
    ghost var received: multiset<Receiver>
    ghost var resumed: multiset<Receiver>
    /** The clock right after the last SIGSTOP to each number. */
    ghost var stopSent: map<Pid, nat>

    constructor (c: Context, state: Sys, script: seq<seq<Act>>, heirs: Pid -> nat)
      ensures this.c == c && this.state == state && this.script == script
      ensures received == multiset{} == resumed && stopSent == map[]
    {
      this.c, this.state, this.script, this.heirs := c, state, script, heirs;
      received, resumed, stopSent := multiset{}, multiset{}, map[];
    }

    method Elapse()
      modifies `state, `script
      ensures state == NextActs(c, old(state), old(script))
      ensures script == if old(script) == [] then [] else old(script)[1..]
    {
      if |script| > 0 {
        state, script := Run(c, state, script[0]), script[1..];
      }
    }

    /** kill(pid, SIGSTOP), in effect before the next call is served. */
    method Freeze(pid: Pid)
      modifies `state, `script, `stopSent
      ensures state == Stopped(NextActs(c, old(state), old(script)), pid)
      ensures stopSent == old(stopSent)[pid := state.clock]
      ensures script == if old(script) == [] then [] else old(script)[1..]
    {
      Elapse();
      if pid in state.procs {
        if !state.procs[pid].zombie {
          state := state.(procs := state.procs[pid := state.procs[pid].(stopped := true)]);
        }
      }
      stopSent := stopSent[pid := state.clock];
    }

    /** isSameProcess. */
    method IsSame(pid: Pid, info: ProcInfo) returns (same: bool)
      modifies `state, `script
      ensures state == NextActs(c, old(state), old(script))
      ensures same <==> pid in state.procs && state.procs[pid].start == info.start && !state.procs[pid].zombie
    {
      Elapse();
      same := pid in state.procs && state.procs[pid].start == info.start && !state.procs[pid].zombie;
    }

    /** kill(pid, sig) for the signal that is to be delivered. */
    method Kill(pid: Pid, fatal: bool)
      modifies `state, `script, `received
      ensures var s := NextActs(c, old(state), old(script));
              state == Signalled(s, pid, fatal, heirs(pid)) && received == old(received) + Holder(s, pid)
    {
      Elapse();
      received := received + Holder(state, pid);
      state := Signalled(state, pid, fatal, heirs(pid));
    }

    /** kill(pid, SIGCONT). */
    method Continue(pid: Pid)
      modifies `state, `script, `resumed
      ensures var s := NextActs(c, old(state), old(script));
              state == Continued(s, pid) && resumed == old(resumed) + Holder(s, pid)
    {
      Elapse();
      resumed := resumed + Holder(state, pid);
      state := Continued(state, pid);
    }
  }

  // ----- Freezing -----

  lemma NextActsKeepFrozen(c: Context, s: Sys, script: seq<seq<Act>>, frozen: map<Pid, ProcInfo>, sent: map<Pid, nat>)
    requires FrozenOk(frozen, sent, s)
    ensures var s' := NextActs(c, s, script);
            && FrozenOk(frozen, sent, s') && StillThere(frozen, s') == StillThere(frozen, s)
            && StayStopped(s.procs, s'.procs, {}) && s.clock <= s'.clock
  {
    if script != [] {
      RunKeepsFrozen(c, s, script[0], frozen, sent);
    }
  }

  lemma NextActsKeep(c: Context, s: Sys, script: seq<seq<Act>>, mem: Memory, frozen: map<Pid, ProcInfo>,
                     sent: map<Pid, nat>)
    requires StopOk(c, s, mem, frozen, sent)
    ensures StopOk(c, NextActs(c, s, script), mem, frozen, sent)
  {
    if script != [] {
      RunKeeps(c, s, script[0], mem);
    }
    NextActsKeepFrozen(c, s, script, frozen, sent);
    RecordsStayKnown(c, mem, frozen, s, NextActs(c, s, script));
  }

  lemma StopKeeps(c: Context, s: Sys, pid: Pid, mem: Memory, frozen: map<Pid, ProcInfo>, sent: map<Pid, nat>)
    requires StopOk(c, s, mem, frozen, sent) && pid !in frozen
    ensures var s' := Stopped(s, pid);
            && StopOk(c, s', mem, frozen, sent) && s'.clock == s.clock && StayStopped(s.procs, s'.procs, {})
            && (pid in s'.procs && !s'.procs[pid].zombie ==> s'.procs[pid].stopped)
  {
  }

  /** What freezing goes by: whoever was stopped when the walk looked still is, and the walk remembers whoever is on
      record. */
  ghost predicate FreezingOk(c: Context, procs: Table, f: Frozen, mem: Memory) {
    && StopOk(c, f.state, mem, f.record, f.sent) && StayStopped(procs, f.state.procs, {})
    && (forall x :: x in procs ==> procs[x].start < f.state.clock)
  }

  ghost predicate FoundOk(c: Context, procs: Table, found: seq<Pid>, mem: Memory) {
    forall x :: x in found ==> Eligible(c, procs, x) && x in mem.known && mem.known[x] == procs[x].start
  }

  lemma StopGivesFrozen(c: Context, s: Sys, mem: Memory, frozen: map<Pid, ProcInfo>, sent: map<Pid, nat>)
    requires StopOk(c, s, mem, frozen, sent)
    ensures FrozenOk(frozen, sent, s)
  {
  }

  lemma SignalKeeps(c: Context, procs: Table, pid: Pid, f: Frozen, mem: Memory)
    requires FreezingOk(c, procs, f, mem) && pid !in f.record
    ensures var f' := Sent(c, f, pid);
            && FreezingOk(c, procs, f', mem) && pid in f'.sent && f'.sent[pid] == f'.state.clock
            && (pid in f'.state.procs && !f'.state.procs[pid].zombie ==> f'.state.procs[pid].stopped)
  {
    hide StopOk, Run, NextActs, Stopped;
    StopGivesFrozen(c, f.state, mem, f.record, f.sent);
    var s := NextActs(c, f.state, f.script);
    NextActsKeepFrozen(c, f.state, f.script, f.record, f.sent);
    NextActsKeep(c, f.state, f.script, mem, f.record, f.sent);
    StopKeeps(c, s, pid, mem, f.record, f.sent);
    OneMoreSent(c, Stopped(s, pid), mem, f.record, f.sent, pid);
    hide FrozenOk;
  }

  lemma OneMoreSent(c: Context, s: Sys, mem: Memory, frozen: map<Pid, ProcInfo>, sent: map<Pid, nat>, pid: Pid)
    requires StopOk(c, s, mem, frozen, sent) && pid !in frozen
    ensures StopOk(c, s, mem, frozen, sent[pid := s.clock])
  {
    hide SysOk, MemOk, RecordsKnown;
    assert forall x :: x in frozen ==> frozen[x].stopped || x in sent;
  }

  lemma RecordKeeps(c: Context, procs: Table, pid: Pid, f: Frozen, mem: Memory)
    requires FreezingOk(c, procs, f, mem) && FoundOk(c, procs, [pid], mem) && pid !in f.record
    requires pid in procs && !procs[pid].stopped ==>
               && pid in f.sent && f.sent[pid] == f.state.clock
               && (pid in f.state.procs && !f.state.procs[pid].zombie ==> f.state.procs[pid].stopped)
    ensures pid in procs && FreezingOk(c, procs, Recorded(f, pid, procs[pid]), mem)
  {
    hide MemOk;
    assert pid in [pid];
    var f' := Recorded(f, pid, procs[pid]);
    assert forall x :: x in StillThere(f'.record, f.state) ==> x == pid || x in StillThere(f.record, f.state);
  }

  lemma FreezeOneKeeps(c: Context, procs: Table, pid: Pid, f: Frozen, mem: Memory)
    requires FreezingOk(c, procs, f, mem) && FoundOk(c, procs, [pid], mem)
    ensures pid in procs && FreezingOk(c, procs, FreezeOne(c, procs, pid, f), mem)
  {
    assert pid in [pid];
    if pid !in f.record {
      hide StopOk, Recorded, NextActs, Stopped;
      if procs[pid].stopped {
        RecordKeeps(c, procs, pid, f, mem);
      } else {
        SignalKeeps(c, procs, pid, f, mem);
        hide FreezingOk;
        RecordKeeps(c, procs, pid, Sent(c, f, pid), mem);
      }
    }
  }

  lemma {:induction false} FreezeAllKeeps(c: Context, procs: Table, found: seq<Pid>, before: Frozen, mem: Memory)
    requires FreezingOk(c, procs, before, mem) && FoundOk(c, procs, found, mem)
    ensures FreezingOk(c, procs, FreezeAll(c, procs, found, before), mem)
    ensures forall x :: x in found ==> x in FreezeAll(c, procs, found, before).record
    ensures before.record.Keys <= FreezeAll(c, procs, found, before).record.Keys
    ensures (forall x :: x in found ==> x in before.record) ==> FreezeAll(c, procs, found, before) == before
  {
    hide FreezingOk;
    if found != [] {
      var n := |found| - 1;
      assert found == found[..n] + [found[n]];
      FreezeAllKeeps(c, procs, found[..n], before, mem);
      FreezeOneKeeps(c, procs, found[n], FreezeAll(c, procs, found[..n], before), mem);
    }
  }

  /** The members of one walk that are not on record yet are recorded and frozen. */
  method FreezeNew(os: System, procs: Table, found: seq<Pid>, frozen0: map<Pid, ProcInfo>)
    returns (frozen: map<Pid, ProcInfo>, grew: bool)
    requires forall x :: x in found ==> x in procs
    modifies os`state, os`script, os`stopSent
    ensures Frozen(os.state, os.script, frozen, os.stopSent) ==
            FreezeAll(os.c, procs, found, Frozen(old(os.state), old(os.script), frozen0, old(os.stopSent)))
    ensures grew <==> exists x :: x in found && x !in frozen0
  {
    hide Run, NextActs, Stopped;
    frozen, grew := frozen0, false;
    for i := 0 to |found|
      invariant Frozen(os.state, os.script, frozen, os.stopSent) ==
                FreezeAll(os.c, procs, found[..i], Frozen(old(os.state), old(os.script), frozen0, old(os.stopSent)))
      invariant frozen0.Keys <= frozen.Keys && forall x :: x in frozen ==> x in frozen0 || x in found[..i]
      invariant grew <==> exists x :: x in found[..i] && x !in frozen0
    {
      var pid := found[i];
      assert pid in found && found[..i + 1] == found[..i] + [pid] && found[..i + 1][..i] == found[..i];
      if pid !in frozen {
        grew := true;
        frozen := frozen[pid := procs[pid]];
        if !procs[pid].stopped {
          os.Freeze(pid);
        }
      }
    }
    assert found[..|found|] == found;
  }

  lemma WalkOk(c: Context, mem: Memory, s: Sys, members: set<Pid>, found: seq<Pid>, mem': Memory,
               script: seq<seq<Act>>, frozen: map<Pid, ProcInfo>, sent: map<Pid, nat>)
    requires StopOk(c, s, mem, frozen, sent) && Remembers(c, mem, s.procs, s.carriers, members, mem')
    requires forall x :: x in found ==> x in members && Eligible(c, s.procs, x)
    ensures FreezingOk(c, s.procs, Frozen(s, script, frozen, sent), mem') && FoundOk(c, s.procs, found, mem')
  {
    WalkMemOk(c, mem, s, members, mem');
    WalkKeepsRecords(c, mem, s, members, mem', frozen);
    hide MemOk, RootSeeds, IsMarked, FrozenOk, RecordsKnown;
  }

  /** What a walk without new members comes to. Its members are all there is to be found, and all on record. They are
      all stopped if and only if none was created after the SIGSTOP to its number; and with the root seen and the
      supervisor apart from the tree, that is exactly when the fixed point is reached. */
  ghost predicate Stable(c: Context, mem: Memory, s: Sys, members: set<Pid>, frozen: map<Pid, ProcInfo>,
                         sent: map<Pid, nat>) {
    && MembersAre(c, mem, s, members) && members <= frozen.Keys
    && (Halted(s, members) <==> InTime(s, members, frozen, sent))
    && (FrozenTree(c, mem, s, members) <==> Apart(c, mem, s, members) && InTime(s, members, frozen, sent))
  }

  lemma NoNewMember(c: Context, mem: Memory, s: Sys, members: set<Pid>, mem': Memory, frozen: map<Pid, ProcInfo>,
                    sent: map<Pid, nat>)
    requires MemOk(mem, s) && StopOk(c, s, mem', frozen, sent)
    requires MembersAre(c, mem, s, members) && Remembers(c, mem, s.procs, s.carriers, members, mem')
    requires (forall x :: x in members ==> Eligible(c, s.procs, x)) && members <= frozen.Keys
    ensures Stable(c, mem', s, members, frozen, sent)
  {
    WalkIsClosed(c, mem, s, members, mem');
    assert Halted(s, members) <==> InTime(s, members, frozen, sent);
    if Apart(c, mem', s, members) && Halted(s, members) {
      WalkReachesFixedPoint(c, mem, s, members, mem');
    }
    hide MemOk, SysOk, Remembers, Closed, FrozenOk, RecordsKnown, OutsidersOk, MembersAre;
  }

  /** One walk and the freezing of its new members, from the memory before to that afterwards. */
  lemma WalkComesTo(c: Context, mem: Memory, before: Frozen, found: seq<Pid>, mem': Memory, after: Frozen)
    requires StopOk(c, before.state, mem, before.record, before.sent)
    requires MembersAre(c, mem, before.state, Found(found))
    requires Remembers(c, mem, before.state.procs, before.state.carriers, Found(found), mem')
    requires forall x :: x in found ==> Eligible(c, before.state.procs, x)
    requires after == FreezeAll(c, before.state.procs, found, before)
    ensures StopOk(c, after.state, mem', after.record, after.sent)
    ensures if exists x :: x in found && x !in before.record then before.record.Keys < after.record.Keys
            else Stable(c, mem', after.state, Found(found), after.record, after.sent)
  {
    var s := before.state;
    StopGivesMem(c, s, mem, before.record, before.sent);
    hide StopOk, MembersAre, Remembers, FoundOk, Stable, Eligible, FreezeAll;
    WalkOk(c, mem, s, Found(found), found, mem', before.script, before.record, before.sent);
    FreezeAllKeeps(c, s.procs, found, before, mem');
    if forall x :: x in found ==> x in before.record {
      NoNewMember(c, mem, s, Found(found), mem', before.record, before.sent);
    }
  }

  function Found(found: seq<Pid>): set<Pid> {
    set x | x in found
  }

  lemma StopGivesMem(c: Context, s: Sys, mem: Memory, frozen: map<Pid, ProcInfo>, sent: map<Pid, nat>)
    requires StopOk(c, s, mem, frozen, sent)
    ensures MemOk(mem, s)
  {
  }

  /** One walk: a new member is recorded and frozen. */
  method WalkAndFreeze(os: System, t: TreeState, frozen0: map<Pid, ProcInfo>)
    returns (frozen: map<Pid, ProcInfo>, grew: bool, ghost members: set<Pid>)
    requires StopOk(os.c, os.state, t.Mem(), frozen0, os.stopSent)
    modifies os`state, os`script, os`stopSent, t
    ensures StopOk(os.c, os.state, t.Mem(), frozen, os.stopSent)
    ensures if grew then frozen0.Keys < frozen.Keys else Stable(os.c, t.Mem(), os.state, members, frozen, os.stopSent)
  {
    NextActsKeep(os.c, os.state, os.script, t.Mem(), frozen0, os.stopSent);
    hide StopOk, NextActs, Seeds, Remembers, IsMember, Stable, Eligible, FreezeAll;
    os.Elapse();
    ghost var mem, before := t.Mem(), Frozen(os.state, os.script, frozen0, os.stopSent);
    var procs := os.state.procs;
    var found := t.Collect(os.c, procs, os.state.carriers);
    members := Found(found);
    assert MembersAre(os.c, mem, before.state, members);
    frozen, grew := FreezeNew(os, procs, found, frozen0);
    WalkComesTo(os.c, mem, before, found, t.Mem(), Frozen(os.state, os.script, frozen, os.stopSent));
  }

  lemma MoreOnRecord(before: set<Pid>, after: set<Pid>)
    requires before < after
    ensures |before| < |after|
  {
    assert after == before + (after - before);
  }

  /** stopTree up to the delivery of the signal: at most ten walks, each followed by freezing its new members. */
  method FreezeTree(os: System, t: TreeState)
    returns (stable: bool, frozen: map<Pid, ProcInfo>, ghost members: set<Pid>)
    requires SysOk(os.state) && MemOk(t.Mem(), os.state)
    modifies os`state, os`script, os`stopSent, t
    ensures StopOk(os.c, os.state, t.Mem(), frozen, os.stopSent)
    ensures if stable then Stable(os.c, t.Mem(), os.state, members, frozen, os.stopSent)
            else |frozen.Keys| >= MAX_TREE_WALKS
  {
    frozen, members, stable := map[], {}, false;
    hide Stable;
    for walk := 0 to MAX_TREE_WALKS
      invariant StopOk(os.c, os.state, t.Mem(), frozen, os.stopSent) && |frozen.Keys| >= walk
    {
      ghost var before := frozen.Keys;
      var grew;
      frozen, grew, members := WalkAndFreeze(os, t, frozen);
      if !grew {
        return true, frozen, members;
      }
      MoreOnRecord(before, frozen.Keys);
    }
  }

  // ----- Delivering the signal -----

  function ReceiverOf(frozen: map<Pid, ProcInfo>, x: Pid): Receiver
    requires x in frozen
  {
    Receiver(x, frozen[x].start)
  }

  /** Each of these numbers once, and each as the process on record. */
  function Delivered(frozen: map<Pid, ProcInfo>, to: set<Pid>): multiset<Receiver> {
    multiset(set x | x in to && x in frozen :: ReceiverOf(frozen, x))
  }

  lemma OneMoreDelivered(frozen: map<Pid, ProcInfo>, to: set<Pid>, done: set<Pid>, x: Pid)
    requires x in frozen && x !in done
    ensures Delivered(frozen, to * (done + {x})) == Delivered(frozen, to * done) + Delivered(frozen, to * {x})
  {
    var a, b := to * done, to * {x};
    assert to * (done + {x}) == a + b;
    var p := set y | y in a && y in frozen :: ReceiverOf(frozen, y);
    var q := set y | y in b && y in frozen :: ReceiverOf(frozen, y);
    assert (set y | y in a + b && y in frozen :: ReceiverOf(frozen, y)) == p + q;
    assert p !! q;
  }

  lemma DeliveredNow(frozen: map<Pid, ProcInfo>, s: Sys, x: Pid)
    requires x in frozen
    ensures x in StillThere(frozen, s) ==> Delivered(frozen, StillThere(frozen, s) * {x}) == Holder(s, x)
    ensures x !in StillThere(frozen, s) ==> Delivered(frozen, StillThere(frozen, s) * {x}) == multiset{}
  {
    var there := StillThere(frozen, s);
    if x in there {
      assert (set y | y in there * {x} && y in frozen :: ReceiverOf(frozen, y)) == {ReceiverOf(frozen, x)};
    } else {
      assert there * {x} == {};
    }
  }

  lemma NoneDelivered(frozen: map<Pid, ProcInfo>)
    ensures Delivered(frozen, {}) == multiset{}
  {
  }

  lemma StayOn(a: Table, b: Table, c: Table, first: set<Pid>, then2: set<Pid>, all: set<Pid>)
    requires StayStopped(a, b, first) && StayStopped(b, c, then2) && first <= all && then2 <= all
    ensures StayStopped(a, c, all)
  {
  }

  /** A frozen tree, and the walks remember whoever is on record. */
  ghost predicate Delivering(c: Context, mem: Memory, s: Sys, members: set<Pid>, frozen: map<Pid, ProcInfo>) {
    FrozenTree(c, mem, s, members) && RecordsKnown(c, mem, frozen, s)
  }

  /** Whoever is on record and still there is a member. */
  lemma ThereIsMember(c: Context, mem: Memory, s: Sys, members: set<Pid>, frozen: map<Pid, ProcInfo>)
    requires MembersAre(c, mem, s, members) && RecordsKnown(c, mem, frozen, s)
    ensures StillThere(frozen, s) <= members
  {
    forall x | x in StillThere(frozen, s) ensures x in members {
      SeedIsMember(c, s.procs, Seeds(c, mem, s.procs, s.carriers), x);
    }
  }

  lemma TreeGoesOn(c: Context, mem: Memory, s: Sys, script: seq<seq<Act>>, members: set<Pid>,
                   frozen: map<Pid, ProcInfo>)
    requires Delivering(c, mem, s, members, frozen)
    requires StillThere(frozen, NextActs(c, s, script)) == StillThere(frozen, s)
    ensures Delivering(c, mem, NextActs(c, s, script), members, frozen)
  {
    if script != [] {
      FrozenTreeStays(c, mem, s, script[0], members);
    }
    RecordsStayKnown(c, mem, frozen, s, NextActs(c, s, script));
  }

  lemma TreeLosesOne(c: Context, mem: Memory, s: Sys, m: Pid, fatal: bool, generations: nat, members: set<Pid>,
                     frozen: map<Pid, ProcInfo>, sent: map<Pid, nat>)
    requires Delivering(c, mem, s, members, frozen) && FrozenOk(frozen, sent, s) && m in StillThere(frozen, s)
    ensures Delivering(c, mem, Signalled(s, m, fatal, generations), if fatal then members - {m} else members, frozen)
  {
    ClosedMeansMembers(c, mem, s, members);
    ThereIsMember(c, mem, s, members, frozen);
    KillKeepsTree(c, mem, s, members, m, fatal, generations);
    KillKeepsFrozen(frozen, sent, s, m, fatal, generations);
    RecordsStayKnown(c, mem, frozen, s, Signalled(s, m, fatal, generations));
  }

  /** One process on record: if it still is the same process, it is sent the signal. */
  method SignalOne(os: System, pid: Pid, info: ProcInfo, fatal: bool, ghost frozen: map<Pid, ProcInfo>,
                   ghost mem: Memory, ghost members: set<Pid>)
    requires pid in frozen && frozen[pid] == info && FrozenOk(frozen, os.stopSent, os.state)
    modifies os`state, os`script, os`received
    ensures FrozenOk(frozen, os.stopSent, os.state)
    ensures StillThere(frozen, os.state) == old(StillThere(frozen, os.state)) - if fatal then {pid} else {}
    ensures os.received == old(os.received) + Delivered(frozen, old(StillThere(frozen, os.state)) * {pid})
    ensures StayStopped(old(os.state.procs), os.state.procs, if fatal then old(StillThere(frozen, os.state)) else {})
    ensures old(Delivering(os.c, mem, os.state, members, frozen)) ==>
              Delivering(os.c, mem, os.state,
                         if fatal then members - old(StillThere(frozen, os.state)) * {pid} else members, frozen)
  {
    hide FrozenOk, Delivering, NextActs, Signalled, Delivered, StayStopped, Holder;
    ghost var s0, there := os.state, StillThere(frozen, os.state);
    ghost var letGo := if fatal then there else {};
    ghost var good := Delivering(os.c, mem, os.state, members, frozen);
    ghost var s1 := NextActs(os.c, os.state, os.script);
    NextActsKeepFrozen(os.c, os.state, os.script, frozen, os.stopSent);
    if good { TreeGoesOn(os.c, mem, os.state, os.script, members, frozen); }
    var same := os.IsSame(pid, info);
    DeliveredNow(frozen, s1, pid);
    StayOn(s0.procs, s0.procs, s1.procs, {}, {}, letGo) by { StayAtFirst(s0.procs); }
    if same {
      ghost var s2 := NextActs(os.c, os.state, os.script);
      NextActsKeepFrozen(os.c, os.state, os.script, frozen, os.stopSent);
      if good {
        TreeGoesOn(os.c, mem, os.state, os.script, members, frozen);
        TreeLosesOne(os.c, mem, s2, pid, fatal, os.heirs(pid), members, frozen, os.stopSent);
      }
      KillKeepsFrozen(frozen, os.stopSent, s2, pid, fatal, os.heirs(pid));
      DeliveredNow(frozen, s2, pid);
      os.Kill(pid, fatal);
      StayOn(s0.procs, s1.procs, s2.procs, letGo, {}, letGo);
      StayOn(s0.procs, s2.procs, os.state.procs, letGo, if fatal then {pid} else {}, letGo);
      assert there * {pid} == {pid};
    } else {
      assert there * {pid} == {} && there - {pid} == there && members - {} == members;
    }
  }

  lemma StayAtFirst(procs: Table)
    ensures StayStopped(procs, procs, {})
  {
  }

  /** The signal reaches exactly those on record that are still there, once each, whatever other processes do in
      between; whoever has got one of the numbers since does not receive it. Whoever survives a kill is left a frozen
      tree. */
  method SignalAll(os: System, frozen: map<Pid, ProcInfo>, fatal: bool, ghost mem: Memory,
                   ghost members: set<Pid>)
    requires FrozenOk(frozen, os.stopSent, os.state)
    modifies os`state, os`script, os`received
    ensures FrozenOk(frozen, os.stopSent, os.state)
    ensures StillThere(frozen, os.state) == if fatal then {} else old(StillThere(frozen, os.state))
    ensures os.received == old(os.received) + Delivered(frozen, old(StillThere(frozen, os.state)))
    ensures StayStopped(old(os.state.procs), os.state.procs, if fatal then old(StillThere(frozen, os.state)) else {})
    ensures old(Delivering(os.c, mem, os.state, members, frozen)) ==>
              Delivering(os.c, mem, os.state,
                         if fatal then members - old(StillThere(frozen, os.state)) else members, frozen)
  {
    hide FrozenOk, Delivering, Delivered, StayStopped, StillThere;
    ghost var s0, there := os.state, StillThere(frozen, os.state);
    ghost var letGo := if fatal then there else {};
    ghost var good := Delivering(os.c, mem, os.state, members, frozen);
    var pids := Enumerate(frozen.Keys);
    ghost var rest, done: set<Pid> := members, {};
    NoneDelivered(frozen);
    StayAtFirst(s0.procs);
    StayOn(s0.procs, s0.procs, s0.procs, {}, {}, letGo);
    assert there * done == {} && there - done == there && members - there * done == members;
    for i := 0 to |pids|
      invariant done == (set x | x in pids[..i]) && rest == if fatal then members - there * done else members
      invariant FrozenOk(frozen, os.stopSent, os.state)
      invariant StillThere(frozen, os.state) == there - if fatal then done else {}
      invariant os.received == old(os.received) + Delivered(frozen, there * done)
      invariant StayStopped(s0.procs, os.state.procs, letGo)
      invariant good ==> Delivering(os.c, mem, os.state, rest, frozen)
    {
      var pid := pids[i];
      assert pid in pids && pid !in pids[..i] && pids[..i + 1] == pids[..i] + [pid];
      ghost var s, now := os.state, StillThere(frozen, os.state);
      assert now * {pid} == there * {pid} && now <= there;
      SignalOne(os, pid, frozen[pid], fatal, frozen, mem, rest);
      OneMoreDelivered(frozen, there, done, pid);
      StayOn(s0.procs, s.procs, os.state.procs, letGo, if fatal then now else {}, letGo);
      rest := if fatal then rest - now * {pid} else rest;
      done := done + {pid};
      assert fatal ==> rest == members - there * done;
    }
    assert pids[..|pids|] == pids;
    ThereOnRecord(frozen, s0);
    assert there * done == there && there - done == {};
  }

  lemma ThereOnRecord(frozen: map<Pid, ProcInfo>, s: Sys)
    ensures StillThere(frozen, s) <= frozen.Keys
  {
  }

  // ----- Letting go -----

  /** Whom this stop froze, of those on record that are still there. */
  function Suspended(frozen: map<Pid, ProcInfo>, there: set<Pid>): set<Pid> {
    set x | x in there && x in frozen && !frozen[x].stopped
  }

  /** One process on record: it is resumed unless it was stopped before this stop, or is another one now. */
  method ResumeOne(os: System, pid: Pid, info: ProcInfo, ghost rest: map<Pid, ProcInfo>)
    requires pid in rest && rest[pid] == info && FrozenOk(rest, os.stopSent, os.state)
    modifies os`state, os`script, os`resumed
    ensures FrozenOk(rest - {pid}, os.stopSent, os.state)
    ensures StillThere(rest - {pid}, os.state) == old(StillThere(rest, os.state)) - {pid}
    ensures os.resumed == old(os.resumed) +
                          Delivered(rest, Suspended(rest, old(StillThere(rest, os.state))) * {pid})
    ensures StayStopped(old(os.state.procs), os.state.procs, Suspended(rest, old(StillThere(rest, os.state))))
  {
    hide FrozenOk, NextActs, Continued, Delivered, StayStopped, Holder;
    ghost var s0, there := os.state, StillThere(rest, os.state);
    ghost var letGo := Suspended(rest, there);
    StayAtFirst(s0.procs);
    StayOn(s0.procs, s0.procs, s0.procs, {}, {}, letGo);
    NoneDelivered(rest);
    if info.stopped {
      OffRecord(rest, os.stopSent, os.state, pid);
      assert Suspended(rest, there) * {pid} == {};
    } else {
      ghost var s1 := NextActs(os.c, os.state, os.script);
      NextActsKeepFrozen(os.c, os.state, os.script, rest, os.stopSent);
      var same := os.IsSame(pid, info);
      StayOn(s0.procs, s0.procs, s1.procs, letGo, {}, letGo);
      DeliveredNow(rest, s1, pid);
      assert Suspended(rest, there) * {pid} == there * {pid};
      OffRecord(rest, os.stopSent, s1, pid);
      if same {
        ghost var s2 := NextActs(os.c, os.state, os.script);
        NextActsKeepFrozen(os.c, os.state, os.script, rest, os.stopSent);
        ContinueKeepsFrozen(rest, os.stopSent, s2, pid);
        DeliveredNow(rest, s2, pid);
        os.Continue(pid);
        StayOn(s0.procs, s1.procs, s2.procs, letGo, {}, letGo);
        StayOn(s0.procs, s2.procs, os.state.procs, letGo, {pid}, letGo);
      }
    }
  }

  lemma OffRecord(frozen: map<Pid, ProcInfo>, sent: map<Pid, nat>, s: Sys, x: Pid)
    requires FrozenOk(frozen, sent, s)
    ensures FrozenOk(frozen - {x}, sent, s)
    ensures StillThere(frozen - {x}, s) == StillThere(frozen, s) - {x}
  {
  }

  lemma SuspendedRest(frozen: map<Pid, ProcInfo>, there: set<Pid>, done: set<Pid>, x: Pid)
    requires x in frozen && x !in done
    ensures Delivered(frozen - done, Suspended(frozen - done, there - done) * {x}) ==
            Delivered(frozen, Suspended(frozen, there) * {x})
    ensures Suspended(frozen - done, there - done) <= Suspended(frozen, there)
  {
    var a, b := Suspended(frozen - done, there - done) * {x}, Suspended(frozen, there) * {x};
    assert a == b;
    assert (set y | y in a && y in frozen - done :: ReceiverOf(frozen - done, y)) ==
           (set y | y in b && y in frozen :: ReceiverOf(frozen, y));
  }

  /** SIGCONT reaches exactly those this stop froze that are still there, once each. */
  method ResumeAll(os: System, frozen: map<Pid, ProcInfo>)
    requires FrozenOk(frozen, os.stopSent, os.state)
    modifies os`state, os`script, os`resumed
    ensures os.resumed == old(os.resumed) + Delivered(frozen, Suspended(frozen, old(StillThere(frozen, os.state))))
    ensures StayStopped(old(os.state.procs), os.state.procs, Suspended(frozen, old(StillThere(frozen, os.state))))
  {
    hide FrozenOk, Delivered, StayStopped, StillThere, Suspended;
    ghost var s0, there := os.state, StillThere(frozen, os.state);
    ghost var to := Suspended(frozen, there);
    var pids := Enumerate(frozen.Keys);
    ghost var done: set<Pid> := {};
    NoneDelivered(frozen);
    StayAtFirst(s0.procs);
    StayOn(s0.procs, s0.procs, s0.procs, {}, {}, to);
    assert to * done == {} && there - done == there && frozen - done == frozen;
    for i := 0 to |pids|
      invariant done == (set x | x in pids[..i])
      invariant FrozenOk(frozen - done, os.stopSent, os.state)
      invariant StillThere(frozen - done, os.state) == there - done
      invariant os.resumed == old(os.resumed) + Delivered(frozen, to * done)
      invariant StayStopped(s0.procs, os.state.procs, to)
    {
      var pid := pids[i];
      assert pid in pids && pid !in pids[..i] && pids[..i + 1] == pids[..i] + [pid];
      ghost var s := os.state;
      ResumeOne(os, pid, frozen[pid], frozen - done);
      SuspendedRest(frozen, there, done, pid);
      OneMoreDelivered(frozen, to, done, pid);
      StayOn(s0.procs, s.procs, os.state.procs, to, Suspended(frozen - done, there - done), to);
      assert (frozen - done) - {pid} == frozen - (done + {pid});
      done := done + {pid};
    }
    assert pids[..|pids|] == pids;
    ToOnRecord(frozen, there);
    assert to * done == to;
  }

  lemma ToOnRecord(frozen: map<Pid, ProcInfo>, there: set<Pid>)
    ensures Suspended(frozen, there) <= frozen.Keys
  {
  }

  /** Who does not stay stopped: whom SIGKILL ends, or whom this stop froze and now resumes. */
  function LetGo(sig: Signal, frozen: map<Pid, ProcInfo>, there: set<Pid>): set<Pid> {
    match sig
    case Sigkill => there
    case StopSignal => {}
    case Other => Suspended(frozen, there)
  }

  /** Of the members, whoever is still the process on record is still there. */
  lemma ThereAreMembers(c: Context, mem: Memory, s: Sys, members: set<Pid>, frozen: map<Pid, ProcInfo>)
    requires MembersAre(c, mem, s, members) && RecordsKnown(c, mem, frozen, s) && members <= frozen.Keys
    requires forall x :: x in members ==> Eligible(c, s.procs, x)
    ensures StillThere(frozen, s) == members - Replaced(frozen, s, members)
  {
    ThereIsMember(c, mem, s, members, frozen);
    hide MembersAre, RecordsKnown;
    assert forall x :: x in StillThere(frozen, s) <==> x in members - Replaced(frozen, s, members);
  }

  lemma MembersEligible(c: Context, mem: Memory, s: Sys, members: set<Pid>)
    requires MembersAre(c, mem, s, members)
    ensures forall x :: x in members ==> Eligible(c, s.procs, x)
  {
    var seeds := Seeds(c, mem, s.procs, s.carriers);
    forall x | x in members ensures Eligible(c, s.procs, x) {
      var w :| IsLine(c, s.procs, seeds, w) && w[|w| - 1] == x;
    }
  }

  /** stopTree: freeze, signal, resume. Stable or not, the signal reaches exactly those on record that are still there,
      and of these exactly the ones this stop froze are resumed, unless the signal stops or has killed them. When the
      stop is stable they are the members that are still the process on record: every member is reached if and only
      if no member's start differs from its record. Everybody else who is stopped stays so. */
  method StopTree(os: System, t: TreeState, sig: Signal)
    returns (stable: bool, frozen: map<Pid, ProcInfo>, ghost members: set<Pid>, ghost atEnd: Sys)
    requires SysOk(os.state) && MemOk(t.Mem(), os.state)
    modifies os, t
    ensures if stable then Stable(os.c, t.Mem(), atEnd, members, frozen, os.stopSent)
            else |frozen.Keys| >= MAX_TREE_WALKS
    ensures os.received == old(os.received) + Delivered(frozen, StillThere(frozen, atEnd))
    ensures os.resumed == old(os.resumed) +
                          if sig.Other? then Delivered(frozen, Suspended(frozen, StillThere(frozen, atEnd)))
                          else multiset{}
    ensures stable ==> StillThere(frozen, atEnd) == members - Replaced(frozen, atEnd, members)
    ensures stable ==> (StillThere(frozen, atEnd) == members <==> Replaced(frozen, atEnd, members) == {})
    ensures StayStopped(atEnd.procs, os.state.procs, LetGo(sig, frozen, StillThere(frozen, atEnd)))
  {
    stable, frozen, members := FreezeTree(os, t);
    atEnd := os.state;
    StopGivesFrozen(os.c, atEnd, t.Mem(), frozen, os.stopSent);
    if stable {
      MembersEligible(os.c, t.Mem(), atEnd, members);
      ThereAreMembers(os.c, t.Mem(), atEnd, members, frozen);
      ReplacedAreMembers(frozen, atEnd, members);
    }
    NoneToResume(frozen);
    hide Stable, StopOk, FrozenOk, StayStopped, StillThere, Replaced, Delivered, Suspended;
    ghost var there := StillThere(frozen, atEnd);
    SignalAll(os, frozen, sig.Sigkill?, t.Mem(), members);
    ghost var afterSignal := os.state;
    if !sig.StopSignal? {
      ResumeAll(os, frozen);
      StayOn(atEnd.procs, afterSignal.procs, os.state.procs, if sig.Sigkill? then there else {},
             Suspended(frozen, StillThere(frozen, afterSignal)), LetGo(sig, frozen, there));
    }
  }

  lemma NoneToResume(frozen: map<Pid, ProcInfo>)
    ensures Suspended(frozen, {}) == {} && Delivered(frozen, Suspended(frozen, {})) == multiset{}
  {
    assert Suspended(frozen, {}) == {};
  }

  lemma ReplacedAreMembers(frozen: map<Pid, ProcInfo>, s: Sys, members: set<Pid>)
    ensures Replaced(frozen, s, members) <= members
  {
  }
}

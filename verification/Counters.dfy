/** The restart counter: what it counts, and which counter a new incarnation takes over. */
module Counters {
  import opened Common
  import opened IncarnationProtocol

  /** How many of the first k steps are this one of incarnation x. */
  function CountOf(labels: seq<Label>, k: nat, l: Label): nat
    requires k <= |labels|
  {
    if k == 0 then 0 else CountOf(labels, k - 1, l) + if labels[k - 1] == l then 1 else 0
  }

  function StartsOf(labels: seq<Label>, k: nat, x: Id): nat
    requires k <= |labels|
  {
    CountOf(labels, k, Runs(x, StartCommand(true))) + CountOf(labels, k, Runs(x, StartCommand(false)))
  }

  /** Between its first start and its end, a command has started once more than it was restarted, or as often while the
      next start is still to come. */
  predicate CountsFit(inc: Incarnation, restarted: nat) {
    && (inc.phase.Alive? || inc.phase.Exited? || inc.phase.Bump? ==> inc.starts == restarted + 1)
    && (inc.phase.Start? || inc.phase.Backoff? ==> inc.starts == restarted)
    && (inc.phase.Unborn? || inc.phase.Scan? || inc.phase.Wait? ==> inc.starts == 0 && restarted == 0)
    && (inc.phase.Enter? || inc.phase.Abort? || inc.phase.Skip? ==> inc.starts == 0 && restarted == 0)
  }

  lemma RunCounts(inc: Incarnation, a: RunAct, restarted: nat)
    requires RunEnabled(inc, a) && CountsFit(inc, restarted)
    ensures var inc' := RunSelf(inc, a);
            && inc'.restarts == inc.restarts + (if a == CountRestart then 1 else 0)
            && inc'.starts == inc.starts + (if a.StartCommand? then 1 else 0)
            && CountsFit(inc', restarted + if a == CountRestart then 1 else 0)
  {
  }

  lemma ShutCounts(inc: Incarnation, step: ShutPc, restarted: nat)
    requires CountsFit(inc, restarted)
    ensures var inc' := ShutSelf(inc, step);
            inc'.restarts == inc.restarts && inc'.starts == inc.starts && CountsFit(inc', restarted)
  {
  }

  lemma StepCounts(s: State, l: Label, s': State, x: Id, restarted: nat)
    requires Next(s, l, s') && x < |s.incs| && CountsFit(s.incs[x], restarted)
    ensures x < |s'.incs|
    ensures s'.incs[x].restarts == s.incs[x].restarts + if l == Runs(x, CountRestart) then 1 else 0
    ensures s'.incs[x].starts ==
            s.incs[x].starts + if l == Runs(x, StartCommand(true)) || l == Runs(x, StartCommand(false)) then 1 else 0
    ensures CountsFit(s'.incs[x], restarted + if l == Runs(x, CountRestart) then 1 else 0)
  {
    hide RunSelf, ShutSelf;
    match l
    case Runs(y, a) => if y == x { RunCounts(s.incs[x], a, restarted); }
    case Shuts(sid) => if s.shutdowns[sid].target == x { ShutCounts(s.incs[x], s.shutdowns[sid].step, restarted); }
    case _ =>
  }

  lemma {:induction false} NothingCountedYet(path: seq<State>, labels: seq<Label>, k: nat, x: Id, l: Label)
    requires IsRun(path, labels) && k < |path| && x >= |path[k].incs| && l.Runs? && l.id == x
    ensures CountOf(labels, k, l) == 0
  {
    if k > 0 {
      var s, b := path[k - 1], labels[k - 1];
      assert Next(s, b, path[k]);
      NeverFewer(s, b, path[k]);
      NothingCountedYet(path, labels, k - 1, x, l);
    }
  }

  lemma NeverFewer(s: State, l: Label, s': State)
    requires Next(s, l, s')
    ensures |s.incs| <= |s'.incs|
  {
    hide RunSelf, ShutSelf;
  }

  /** The counter a new incarnation begins with. */
  ghost function BornWith(path: seq<State>, labels: seq<Label>, x: Id): nat
    requires IsRun(path, labels) && x < |path[|labels|].incs|
    decreases |labels|
  {
    assert |labels| > 0;
    if x < |path[|labels| - 1].incs| then
      Shorter(path, labels);
      BornWith(path[..|labels|], labels[..|labels| - 1], x)
    else path[|labels|].incs[x].restarts
  }

  lemma Shorter(path: seq<State>, labels: seq<Label>)
    requires IsRun(path, labels) && |labels| > 0
    ensures IsRun(path[..|labels|], labels[..|labels| - 1])
    ensures path[..|labels|][|labels| - 1] == path[|labels| - 1]
  {
    hide Next;
    var p, q := path[..|labels|], labels[..|labels| - 1];
    forall k | 0 <= k < |q|
      ensures Next(p[k], q[k], p[k + 1])
    {
      assert p[k] == path[k] && p[k + 1] == path[k + 1] && q[k] == labels[k];
    }
  }

  /** In every run the counter of an incarnation is the one it began with, and one more for each of its restarts; and
      its command has started as often as it says. */
  lemma {:induction false} CounterCounts(path: seq<State>, labels: seq<Label>, x: Id)
    requires IsRun(path, labels) && x < |path[|labels|].incs|
    ensures var inc, n := path[|labels|].incs[x], |labels|;
            && inc.restarts == BornWith(path, labels, x) + CountOf(labels, n, Runs(x, CountRestart))
            && inc.starts == StartsOf(labels, n, x)
            && CountsFit(inc, CountOf(labels, n, Runs(x, CountRestart)))
    decreases |labels|
  {
    assert |labels| > 0;
    var n := |labels| - 1;
    var s, l := path[n], labels[n];
    assert Next(s, l, path[n + 1]);
    if x < |s.incs| {
      Shorter(path, labels);
      CounterCounts(path[..n + 1], labels[..n], x);
      SameCount(labels, n, Runs(x, CountRestart));
      SameCount(labels, n, Runs(x, StartCommand(true)));
      SameCount(labels, n, Runs(x, StartCommand(false)));
      StepCounts(s, l, path[n + 1], x, CountOf(labels, n, Runs(x, CountRestart)));
    } else {
      NothingCountedYet(path, labels, n, x, Runs(x, CountRestart));
      NothingCountedYet(path, labels, n, x, Runs(x, StartCommand(true)));
      NothingCountedYet(path, labels, n, x, Runs(x, StartCommand(false)));
      BornFresh(s, l, path[n + 1], x);
    }
  }

  lemma BornFresh(s: State, l: Label, s': State, x: Id)
    requires Next(s, l, s') && |s.incs| <= x < |s'.incs|
    ensures s'.incs[x].phase == Unborn && s'.incs[x].starts == 0 && !l.Runs?
  {
  }

  lemma {:induction false} SameCount(labels: seq<Label>, k: nat, l: Label)
    requires k <= |labels|
    ensures CountOf(labels[..k], k, l) == CountOf(labels, k, l)
  {
    PrefixCount(labels, labels[..k], k, l);
  }

  lemma {:induction false} PrefixCount(a: seq<Label>, b: seq<Label>, k: nat, l: Label)
    requires k <= |a| && k <= |b| && a[..k] == b[..k]
    ensures CountOf(b, k, l) == CountOf(a, k, l)
  {
    if k > 0 {
      assert a[..k - 1] == a[..k][..k - 1] && b[..k - 1] == b[..k][..k - 1];
      assert a[k - 1] == a[..k][k - 1] && b[k - 1] == b[..k][k - 1];
      PrefixCount(a, b, k - 1, l);
    }
  }

  // ----- Which counter is taken over -----

  /** Step j launched the incarnation whose state is the canonical one of its name before step k. */
  ghost predicate LastLaunched(labels: seq<Label>, j: nat, k: nat, n: Name) {
    && j < k <= |labels| && labels[j].NewIncarnationState? && labels[j].name == n
    && forall i: nat :: j < i < k ==>
         !(labels[i].NewIncarnationState? && labels[i].name == n) && labels[i] != NewProcessState(n)
  }

  ghost predicate ResetSince(labels: seq<Label>, j: nat, k: nat, n: Name) {
    exists i: nat :: j < i < k && i < |labels| && labels[i] == ResetRestartCount(n)
  }

  /** Which state is canonical, and whether the counter is to be reset, in terms of the steps so far. */
  ghost predicate CanonTells(path: seq<State>, labels: seq<Label>, k: nat, n: Name)
    requires k < |path|
  {
    && (n in path[k].canon ==>
          exists j: nat :: LastLaunched(labels, j, k, n) && j < |path| && path[k].canon[n] == |path[j].incs|)
    && (n !in path[k].canon ==> forall j: nat :: !LastLaunched(labels, j, k, n))
    && (forall j: nat :: LastLaunched(labels, j, k, n) ==> (n in path[k].resets <==> ResetSince(labels, j, k, n)))
  }

  lemma LaunchedLater(labels: seq<Label>, j: nat, k: nat, n: Name)
    requires k < |labels|
    ensures LastLaunched(labels, j, k + 1, n) <==>
            || (j == k && labels[k].NewIncarnationState? && labels[k].name == n)
            || (LastLaunched(labels, j, k, n) && labels[k] != NewProcessState(n)
                && !(labels[k].NewIncarnationState? && labels[k].name == n))
  {
  }

  lemma ResetLater(labels: seq<Label>, j: nat, k: nat, n: Name)
    requires j < k < |labels|
    ensures ResetSince(labels, j, k + 1, n) <==> ResetSince(labels, j, k, n) || labels[k] == ResetRestartCount(n)
  {
  }

  lemma OthersKeepCanon(s: State, l: Label, s': State, n: Name)
    requires Next(s, l, s') && l != NewProcessState(n) && l != ResetRestartCount(n)
    requires !(l.NewIncarnationState? && l.name == n)
    ensures (n in s'.canon <==> n in s.canon) && (n in s.canon ==> s'.canon[n] == s.canon[n])
    ensures n in s'.resets <==> n in s.resets
  {
    hide RunSelf, ShutSelf, WaitPhase;
  }

  lemma {:induction false} RunTells(path: seq<State>, labels: seq<Label>, k: nat, n: Name)
    requires IsRun(path, labels) && k < |path|
    ensures CanonTells(path, labels, k, n)
  {
    if k > 0 {
      RunTells(path, labels, k - 1, n);
      var l := labels[k - 1];
      assert Next(path[k - 1], l, path[k]);
      forall j: nat ensures LastLaunched(labels, j, k, n) <==>
                            || (j == k - 1 && l.NewIncarnationState? && l.name == n)
                            || (LastLaunched(labels, j, k - 1, n) && l != NewProcessState(n)
                                && !(l.NewIncarnationState? && l.name == n))
      {
        LaunchedLater(labels, j, k - 1, n);
      }
      forall j: nat | LastLaunched(labels, j, k, n) && j < k - 1
        ensures ResetSince(labels, j, k, n) <==> ResetSince(labels, j, k - 1, n) || l == ResetRestartCount(n)
      {
        ResetLater(labels, j, k - 1, n);
      }
      if l.NewIncarnationState? && l.name == n {
        assert LastLaunched(labels, k - 1, k, n) && !ResetSince(labels, k - 1, k, n);
      } else if l != NewProcessState(n) && l != ResetRestartCount(n) {
        OthersKeepCanon(path[k - 1], l, path[k], n);
        hide Next, LastLaunched, ResetSince, IsRun;
      } else {
        hide Next, LastLaunched, ResetSince, IsRun;
      }
    }
  }

  /** In every run a new incarnation takes over the counter of the one launched before it, as it stands now, unless the
      state object was replaced or the counter was reset since; then, and for the first one, it begins at 0. */
  lemma CarriesOver(path: seq<State>, labels: seq<Label>, k: nat, n: Name, conf: Config, j: nat)
    requires IsRun(path, labels) && k < |labels| && labels[k] == NewIncarnationState(n, conf)
    ensures |path[k + 1].incs| == |path[k].incs| + 1
    ensures LastLaunched(labels, j, k, n) && !ResetSince(labels, j, k, n) ==>
              |path[j].incs| < |path[k].incs|
              && path[k + 1].incs[|path[k].incs|].restarts == path[k].incs[|path[j].incs|].restarts
    ensures (forall i: nat :: LastLaunched(labels, i, k, n) ==> ResetSince(labels, i, k, n)) ==>
              path[k + 1].incs[|path[k].incs|].restarts == 0
  {
    assert Next(path[k], labels[k], path[k + 1]);
    RunTells(path, labels, k, n);
    if LastLaunched(labels, j, k, n) {
      GrownSince(path, labels, j, k);
      OnlyOneLast(labels, j, k, n);
    }
  }

  lemma OnlyOneLast(labels: seq<Label>, j: nat, k: nat, n: Name)
    requires LastLaunched(labels, j, k, n)
    ensures forall i: nat :: LastLaunched(labels, i, k, n) ==> i == j
  {
  }

  lemma {:induction false} GrownSince(path: seq<State>, labels: seq<Label>, j: nat, k: nat)
    requires IsRun(path, labels) && j < k < |path| && labels[j].NewIncarnationState?
    ensures |path[j].incs| < |path[k].incs|
    decreases k
  {
    assert Next(path[k - 1], labels[k - 1], path[k]);
    NeverFewer(path[k - 1], labels[k - 1], path[k]);
    if j < k - 1 {
      GrownSince(path, labels, j, k - 1);
    }
  }
}

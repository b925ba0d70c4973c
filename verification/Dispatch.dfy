/** Turning triggers into restarts: causality, batches and flap detection. One goroutine owns this state. */
module Dispatch {
  import opened Common
  import Watcher

  /** A trigger as the dispatcher sees it: whose watch fired, and when its newest event was. */
  datatype Trigger = Trigger(proc: Name, at: int)

  /** A stamped batch: `at` is the newest event of its trigger, and `handed` tells whether it went to
      RestartProcesses or the flap detector suspended it. */
  datatype Batch = Batch(names: seq<Name>, at: int, start: int, handed: bool)

  // ----- Sliding windows -----

  /** The stamps after a time. */
  function Later(stamps: seq<int>, cutoff: int): (r: seq<int>)
    ensures forall t :: t in r ==> t in stamps && t > cutoff
    ensures |r| <= |stamps|
  {
    if stamps == [] then []
    else Later(stamps[..|stamps| - 1], cutoff) + if stamps[|stamps| - 1] > cutoff then [stamps[|stamps| - 1]] else []
  }

  predicate Sorted(stamps: seq<int>) {
    forall i, j :: 0 <= i < j < |stamps| ==> stamps[i] <= stamps[j]
  }

  /** Pruning twice, with a later cutoff the second time, is pruning once. */
  lemma {:induction false} LaterTwice(stamps: seq<int>, first: int, second: int)
    requires first <= second
    ensures Later(Later(stamps, first), second) == Later(stamps, second)
  {
    if stamps != [] {
      var front, last := stamps[..|stamps| - 1], stamps[|stamps| - 1];
      LaterTwice(front, first, second);
      if last > first {
        var pruned := Later(front, first) + [last];
        assert pruned[..|pruned| - 1] == Later(front, first);
      } else {
        assert Later(stamps, first) == Later(front, first);
      }
    }
  }

  /** How many stamps lie after lo and not after hi. */
  function CountIn(stamps: seq<int>, lo: int, hi: int): nat {
    if stamps == [] then 0
    else CountIn(stamps[..|stamps| - 1], lo, hi) + if lo < stamps[|stamps| - 1] <= hi then 1 else 0
  }

  lemma {:induction false} CountBelowLater(stamps: seq<int>, lo: int, hi: int, cutoff: int)
    requires cutoff <= lo
    ensures CountIn(stamps, lo, hi) <= |Later(stamps, cutoff)|
  {
    if stamps != [] {
      CountBelowLater(stamps[..|stamps| - 1], lo, hi, cutoff);
    }
  }

  /** Each stamp, when it was made, had fewer than `threshold` stamps in the window that ends with it. */
  ghost predicate Bounded(stamps: seq<int>, window: int, threshold: int) {
    forall i :: 0 <= i < |stamps| ==> |Later(stamps[..i + 1], stamps[i] - window)| < threshold
  }

  /** Then every window, wherever it lies, holds fewer than `threshold`. */
  lemma {:induction false} EveryWindowBounded(stamps: seq<int>, window: int, threshold: int, lo: int)
    requires Sorted(stamps) && Bounded(stamps, window, threshold) && threshold > 0
    ensures CountIn(stamps, lo, lo + window) < threshold
  {
    hide Later;
    if stamps != [] {
      var n := |stamps| - 1;
      var front, last := stamps[..n], stamps[n];
      if lo < last <= lo + window {
        assert stamps[..n + 1] == stamps;
        CountBelowLater(stamps, lo, lo + window, last - window);
      } else {
        forall i | 0 <= i < n ensures |Later(front[..i + 1], front[i] - window)| < threshold {
          assert front[..i + 1] == stamps[..i + 1];
        }
        EveryWindowBounded(front, window, threshold, lo);
      }
    }
  }

  // ----- What the batches say -----

  /** The restarts a process's own watch triggered since it was last suspended. */
  function OwnRestarts(batches: seq<Batch>, name: Name): seq<int> {
    if batches == [] then []
    else
      var before, b := OwnRestarts(batches[..|batches| - 1], name), batches[|batches| - 1];
      if b.names == [] || b.names[0] != name then before
      else if b.handed then before + [b.start] else []
  }

  lemma OwnRestartsAppend(batches: seq<Batch>, b: Batch, name: Name)
    ensures OwnRestarts(batches + [b], name) ==
              if b.names == [] || b.names[0] != name then OwnRestarts(batches, name)
              else if b.handed then OwnRestarts(batches, name) + [b.start] else []
  {
    assert (batches + [b])[..|batches|] == batches;
  }

  function StampsIn(restarts: map<Name, seq<int>>, name: Name): seq<int> {
    if name in restarts then restarts[name] else []
  }

  /** The flap detector: record and forget. */
  class FlapDetector {
    const window: int
    const threshold: int
    var restarts: map<Name, seq<int>>

    constructor (window: int, threshold: int)
      ensures this.window == window && this.threshold == threshold && restarts == map[]
    {
      this.window, this.threshold, restarts := window, threshold, map[];
    }

    method Record(name: Name, at: int) returns (flapping: bool)
      modifies this
      ensures restarts == old(restarts)[name := Later(StampsIn(old(restarts), name), at - window) + [at]]
      ensures flapping <==> |restarts[name]| >= threshold
    {
      var cutoff := at - window;
      var stamps := if name in restarts then restarts[name] else [];
      var kept: seq<int> := [];
      for i := 0 to |stamps|
        invariant kept == Later(stamps[..i], cutoff)
      {
        assert stamps[..i + 1][..i] == stamps[..i];
        if stamps[i] > cutoff {
          kept := kept + [stamps[i]];
        }
      }
      assert stamps[..|stamps|] == stamps;
      kept := kept + [at];
      restarts := restarts[name := kept];
      flapping := |kept| >= threshold;
    }

    method Forget(name: Name)
      modifies this
      ensures restarts == old(restarts) - {name}
    {
      restarts := restarts - {name};
    }
  }

  // ----- The dispatcher -----

  /** Some stamped batch that contains name began after `at`; it was handed over unless it was suspended. */
  ghost predicate LaterBatch(batches: seq<Batch>, name: Name, at: int) {
    exists b :: b in batches && name in b.names && b.start > at
  }

  /** The stamp list is the last window of the history; the history is bounded in every window. */
  ghost predicate HistoryOk(history: seq<int>, stamps: seq<int>, window: int, threshold: int, clock: int) {
    && Sorted(history) && Bounded(history, window, threshold)
    && (forall t :: t in history ==> t <= clock)
    && stamps == if history == [] then [] else Later(history, history[|history| - 1] - window)
  }

  lemma BoundedGrows(history: seq<int>, window: int, threshold: int, now: int)
    requires Bounded(history, window, threshold) && |Later(history + [now], now - window)| < threshold
    ensures Bounded(history + [now], window, threshold)
  {
    hide Later;
    var longer := history + [now];
    forall i | 0 <= i < |longer| ensures |Later(longer[..i + 1], longer[i] - window)| < threshold {
      if i < |history| {
        assert longer[..i + 1] == history[..i + 1];
      } else {
        assert longer[..i + 1] == longer;
      }
    }
  }

  lemma StampsGrow(history: seq<int>, stamps: seq<int>, window: int, threshold: int, clock: int, now: int)
    requires HistoryOk(history, stamps, window, threshold, clock) && clock <= now && window > 0
    ensures Later(stamps, now - window) + [now] == Later(history + [now], now - window)
  {
    LaterAppend(history, now, now - window);
    hide Later;
    if history != [] {
      assert history[|history| - 1] in history;
      LaterTwice(history, history[|history| - 1] - window, now - window);
    }
  }

  lemma LaterAppend(stamps: seq<int>, t: int, cutoff: int)
    ensures Later(stamps + [t], cutoff) == Later(stamps, cutoff) + if t > cutoff then [t] else []
  {
    assert (stamps + [t])[..|stamps|] == stamps;
  }

  lemma HistoryGrows(history: seq<int>, stamps: seq<int>, window: int, threshold: int, clock: int, now: int)
    requires HistoryOk(history, stamps, window, threshold, clock) && clock <= now && window > 0
    requires |Later(stamps, now - window) + [now]| < threshold
    ensures HistoryOk(history + [now], Later(stamps, now - window) + [now], window, threshold, now)
  {
    hide Later, Bounded, Sorted;
    StampsGrow(history, stamps, window, threshold, clock, now);
    BoundedGrows(history, window, threshold, now);
    SortedGrows(history, clock, now);
    assert (history + [now])[|history|] == now;
  }

  lemma SortedGrows(history: seq<int>, clock: int, now: int)
    requires Sorted(history) && clock <= now && forall t :: t in history ==> t <= clock
    ensures Sorted(history + [now]) && forall t :: t in history + [now] ==> t <= now
  {
    forall i, j | 0 <= i < j < |history + [now]| ensures (history + [now])[i] <= (history + [now])[j] {
      assert history[i] in history;
    }
  }

  /** The stamps are those of the latest batch of each process. */
  ghost predicate StampsOk(restartedAt: map<Name, int>, batches: seq<Batch>, clock: int) {
    && (forall n :: n in restartedAt ==> exists b :: b in batches && n in b.names && b.start == restartedAt[n])
    && (forall b, n :: b in batches && n in b.names ==> n in restartedAt && b.start <= restartedAt[n] <= clock)
  }

  lemma StampedOk(before: map<Name, int>, after: map<Name, int>, batches: seq<Batch>, names: seq<Name>,
                  clock: int, at: int, now: int, handed: bool)
    requires StampsOk(before, batches, clock) && clock <= now
    requires forall n :: n in after <==> n in before || n in names
    requires forall n :: n in after ==> after[n] == if n in names then now else before[n]
    ensures StampsOk(after, batches + [Batch(names, at, now, handed)], now)
  {
    var b := Batch(names, at, now, handed);
    var longer := batches + [b];
    assert b in longer && forall x :: x in longer <==> x in batches || x == b;
    forall n | n in after ensures exists x :: x in longer && n in x.names && x.start == after[n] {
      if n !in names {
        var x :| x in batches && n in x.names && x.start == before[n];
        assert x in longer;
      }
    }
  }

  lemma EmptyHistoryOk(window: int, threshold: int, clock: int)
    ensures HistoryOk([], [], window, threshold, clock)
  {
  }

  lemma LaterClock(history: seq<int>, stamps: seq<int>, window: int, threshold: int, clock: int, now: int)
    requires HistoryOk(history, stamps, window, threshold, clock) && clock <= now
    ensures HistoryOk(history, stamps, window, threshold, now)
  {
  }

  /** The flap detector's stamps are the last window of each process's own restarts. */
  ghost predicate HistoriesOk(batches: seq<Batch>, restarts: map<Name, seq<int>>, window: int, threshold: int,
                              clock: int) {
    forall n :: HistoryOk(OwnRestarts(batches, n), StampsIn(restarts, n), window, threshold, clock)
  }

  /** What recording, and forgetting when it reaches the threshold, leaves. */
  lemma RecordedOk(batches: seq<Batch>, restarts: map<Name, seq<int>>, window: int, threshold: int, clock: int,
                   names: seq<Name>, at: int, now: int)
    requires HistoriesOk(batches, restarts, window, threshold, clock) && names != [] && window > 0 && clock <= now
    ensures var stamps := Later(StampsIn(restarts, names[0]), now - window) + [now];
            HistoriesOk(batches + [Batch(names, at, now, |stamps| < threshold)],
                        if |stamps| < threshold then restarts[names[0] := stamps]
                        else restarts[names[0] := stamps] - {names[0]}, window, threshold, now)
  {
    EmptyHistoryOk(window, threshold, now);
    hide HistoryOk, OwnRestarts, Later;
    var head := names[0];
    var stamps := Later(StampsIn(restarts, head), now - window) + [now];
    var b := Batch(names, at, now, |stamps| < threshold);
    var after := if |stamps| < threshold then restarts[head := stamps] else restarts[head := stamps] - {head};
    forall n ensures HistoryOk(OwnRestarts(batches + [b], n), StampsIn(after, n), window, threshold, now) {
      OwnRestartsAppend(batches, b, n);
      var history := OwnRestarts(batches, n);
      assert HistoryOk(history, StampsIn(restarts, n), window, threshold, clock);
      if n != head {
        LaterClock(history, StampsIn(restarts, n), window, threshold, clock, now);
      } else if |stamps| < threshold {
        HistoryGrows(history, StampsIn(restarts, head), window, threshold, clock, now);
      }
    }
  }

  /** Whoever heads a batch was not restarted by an earlier batch after the event that triggered this one. */
  ghost predicate Causal(batches: seq<Batch>) {
    forall i, j :: 0 <= i < j < |batches| && batches[j].names != [] && batches[j].names[0] in batches[i].names ==>
      batches[i].start <= batches[j].at
  }

  lemma CausalGrows(batches: seq<Batch>, b: Batch)
    requires Causal(batches) && (b.names != [] ==> !LaterBatch(batches, b.names[0], b.at))
    ensures Causal(batches + [b])
  {
    var longer := batches + [b];
    forall i, j | 0 <= i < j < |longer| && longer[j].names != [] && longer[j].names[0] in longer[i].names
      ensures longer[i].start <= longer[j].at
    {
      assert longer[i] in batches;
    }
  }

  /** The stamp of a process tells whether a batch with it began after a time. */
  lemma StampTells(restartedAt: map<Name, int>, batches: seq<Batch>, clock: int, name: Name, at: int)
    requires StampsOk(restartedAt, batches, clock)
    ensures LaterBatch(batches, name, at) <==> name in restartedAt && restartedAt[name] > at
  {
    if name in restartedAt && restartedAt[name] > at {
      var b :| b in batches && name in b.names && b.start == restartedAt[name];
      assert b.start > at;
    }
  }

  /** With one more restart at `now` the window that ends there reaches the threshold. */
  ghost predicate ReachesThreshold(batches: seq<Batch>, name: Name, window: int, threshold: int, now: int) {
    |Later(OwnRestarts(batches, name), now - window)| + 1 >= threshold
  }

  class Dispatcher {
    const flap: FlapDetector
    var restartedAt: map<Name, int>
    /** Every batch stamped so far, and the time of the latest. */
    ghost var batches: seq<Batch>
    ghost var clock: int

    ghost predicate Valid()
      reads this, flap
    {
      && flap.window > 0
      && StampsOk(restartedAt, batches, clock) && Causal(batches)
      && HistoriesOk(batches, flap.restarts, flap.window, flap.threshold, clock)
    }

    constructor (window: int, threshold: int, clock: int)
      requires window > 0
      ensures Valid() && fresh(flap) && batches == [] && flap.window == window && flap.threshold == threshold
    {
      flap := new FlapDetector(window, threshold);
      restartedAt, batches := map[], [];
      this.clock := clock;
    }

    /** Since a process was last suspended, every window has held fewer than `threshold` restarts triggered by its
        own watch. */
    lemma FlapBound(name: Name, lo: int)
      requires Valid() && flap.threshold > 0
      ensures CountIn(OwnRestarts(batches, name), lo, lo + flap.window) < flap.threshold
    {
      assert HistoryOk(OwnRestarts(batches, name), StampsIn(flap.restarts, name), flap.window, flap.threshold, clock);
      EveryWindowBounded(OwnRestarts(batches, name), flap.window, flap.threshold, lo);
    }

    /** Neither restarted nor registered since the trigger's newest event. */
    predicate ShouldRestart(t: Trigger, watchFrom: int)
      reads this
    {
      (t.proc in restartedAt ==> restartedAt[t.proc] <= t.at) && watchFrom <= t.at
    }

    method StampAll(names: seq<Name>, now: int)
      modifies `restartedAt
      ensures forall n :: n in restartedAt <==> n in old(restartedAt) || n in names
      ensures forall n :: n in restartedAt ==> restartedAt[n] == if n in names then now else old(restartedAt)[n]
    {
      for i := 0 to |names|
        invariant forall n :: n in restartedAt <==> n in old(restartedAt) || n in names[..i]
        invariant forall n :: n in restartedAt ==>
                    restartedAt[n] == if n in names[..i] then now else old(restartedAt)[n]
      {
        assert names[..i + 1] == names[..i] + [names[i]];
        restartedAt := restartedAt[names[i] := now];
      }
      assert names[..|names|] == names;
    }

    /** The head of a batch is recorded with the flap detector, which forgets it when it suspends it. */
    method RecordHead(names: seq<Name>, ghost at: int, now: int) returns (flapping: bool)
      requires names != [] && flap.window > 0 && clock <= now
      requires HistoriesOk(batches, flap.restarts, flap.window, flap.threshold, clock)
      modifies flap
      ensures HistoriesOk(batches + [Batch(names, at, now, !flapping)], flap.restarts, flap.window, flap.threshold, now)
      ensures flapping <==> ReachesThreshold(batches, names[0], flap.window, flap.threshold, now)
    {
      hide HistoriesOk, Later, OwnRestarts, ReachesThreshold, StampsIn;
      var head := names[0];
      ghost var stamps := Later(StampsIn(flap.restarts, head), now - flap.window) + [now];
      WindowIsStamps(batches, flap.restarts, flap.window, flap.threshold, clock, head, now);
      RecordedOk(batches, flap.restarts, flap.window, flap.threshold, clock, names, at, now);
      flapping := flap.Record(head, now);
      assert flap.restarts[head] == stamps;
      if flapping {
        flap.Forget(head);
      }
    }

    static lemma WindowIsStamps(batches: seq<Batch>, restarts: map<Name, seq<int>>, window: int, threshold: int,
                                clock: int, name: Name, now: int)
      requires HistoriesOk(batches, restarts, window, threshold, clock) && window > 0 && clock <= now
      ensures ReachesThreshold(batches, name, window, threshold, now) <==>
              |Later(StampsIn(restarts, name), now - window) + [now]| >= threshold
    {
      var history := OwnRestarts(batches, name);
      assert HistoryOk(history, StampsIn(restarts, name), window, threshold, clock);
      LaterAppend(history, now, now - window);
      StampsGrow(history, StampsIn(restarts, name), window, threshold, clock, now);
    }

    /** A batch is stamped and its head recorded with the flap detector. */
    method Stamp(names: seq<Name>, ghost at: int, now: int) returns (flapping: bool)
      requires Valid() && clock <= now && names != [] && !LaterBatch(batches, names[0], at)
      modifies this, flap
      ensures Valid() && clock == now && batches == old(batches) + [Batch(names, at, now, !flapping)]
      ensures flapping <==> ReachesThreshold(old(batches), names[0], flap.window, flap.threshold, now)
    {
      hide HistoriesOk, Causal, ReachesThreshold, LaterBatch;
      StampAll(names, now);
      flapping := RecordHead(names, at, now);
      StampedOk(old(restartedAt), restartedAt, batches, names, clock, at, now, !flapping);
      CausalGrows(batches, Batch(names, at, now, !flapping));
      batches, clock := batches + [Batch(names, at, now, !flapping)], now;
    }

    /** A batch never restarts the process whose watch triggered it for an event that one of its earlier restarts has
        already seen. */
    lemma Causality(i: nat, j: nat)
      requires Valid() && i < j < |batches| && batches[j].names != [] && batches[j].names[0] in batches[i].names
      ensures batches[i].start <= batches[j].at
    {
    }

    /** Registered, and neither paused nor suspended. */
    predicate Active(w: Watcher.Watcher, name: Name)
      reads w, w.Watches()
    {
      name in w.procs && !w.procs[name].paused && !w.procs[name].suspended
    }

    /** handleTrigger: what comes back is handed to RestartProcesses. The trigger of an active watch is dropped if and
        only if its newest event is older than the registration of the watch, or than a batch with its process; any
        other is stamped as a batch, which is handed over unless its watch is suspended, and that happens exactly when
        it reaches the threshold of the flap detector. */
    method HandleTrigger(t: Trigger, w: Watcher.Watcher, dependents: Name -> seq<Name>, now: int)
      returns (names: seq<Name>)
      requires Valid() && clock <= now && (t.proc in w.procs ==> w.procs[t.proc].name == t.proc)
      modifies this, flap, if t.proc in w.procs then {w.procs[t.proc]} else {}
      ensures Valid() && clock >= old(clock)
      ensures old(Active(w, t.proc)) <==>
                old(t.proc in w.procs && !w.procs[t.proc].paused && !w.procs[t.proc].suspended)
      ensures !old(Active(w, t.proc)) ==> names == [] && batches == old(batches)
      ensures old(Active(w, t.proc)) ==>
                (batches == old(batches) <==>
                 t.at < old(w.procs[t.proc].watchFrom) || LaterBatch(old(batches), t.proc, t.at))
      ensures batches == old(batches) ==>
                names == [] && (t.proc in w.procs ==> w.procs[t.proc].suspended == old(w.procs[t.proc].suspended))
      ensures batches != old(batches) ==>
                && t.proc in w.procs
                && var batch := Batch([t.proc] + (if w.procs[t.proc].cascade then dependents(t.proc) else []), t.at,
                                      now, !w.procs[t.proc].suspended);
                   batches == old(batches) + [batch] && names == if batch.handed then batch.names else []
      ensures batches != old(batches) ==>
                (w.procs[t.proc].suspended <==>
                 ReachesThreshold(old(batches), t.proc, flap.window, flap.threshold, now))
    {
      names := [];
      if t.proc !in w.procs {
        return;
      }
      var pw := w.procs[t.proc];
      if pw.paused || pw.suspended {
        return;
      }
      StampTells(restartedAt, batches, clock, t.proc, t.at);
      if !ShouldRestart(t, pw.watchFrom) {
        return;
      }
      var batch := [t.proc];
      if pw.cascade {
        batch := batch + dependents(t.proc);
      }
      assert batch == [t.proc] + (if pw.cascade then dependents(t.proc) else []);
      var flapping := Stamp(batch, t.at, now);
      assert batches[|old(batches)|] == Batch(batch, t.at, now, !flapping);
      if flapping {
        pw.suspended := true;
        return;
      }
      names := batch;
    }
  }
}

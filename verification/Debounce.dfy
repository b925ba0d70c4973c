/** The trailing-edge debouncer: a burst of change events becomes one trigger, a delay after the last event. */
module Debounce {
  import opened Common

  datatype Event = Event(path: string, at: int)

  /** One debounced burst: its newest path, the time of its newest event, how many events it holds. */
  datatype Trigger = Trigger(path: string, at: int, count: nat)

  /** In milliseconds. */
  const DEFAULT_DEBOUNCE := 300

  function Delay(configured: int): int {
    if configured <= 0 then DEFAULT_DEBOUNCE else configured
  }

  /** debouncer: notify, onElapsed and stop, each one step under its mutex. A wake-up may come at any time, also
      more than one for one timer. */
  class Debouncer {
    const delay: int
    var armed: bool
    var lastEvent: int
    var lastPath: string
    var count: nat
    var stopped: bool
    /** Events accepted and not yet triggered, the bursts triggered, and what stopping discarded. */
    ghost var pending: seq<Event>
    ghost var bursts: seq<seq<Event>>
    ghost var discarded: seq<Event>
    ghost var accepted: seq<Event>

    ghost predicate Valid()
      reads this
    {
      && delay > 0
      && (armed <==> count > 0) && (stopped ==> count == 0)
      && count == |pending|
      && (count > 0 ==> lastEvent == pending[count - 1].at && lastPath == pending[count - 1].path)
      && (!stopped ==> discarded == [])
      && accepted == Concat(bursts) + pending + discarded
    }

    constructor (delay: int)
      ensures Valid() && accepted == [] && bursts == [] && !stopped && this.delay == Delay(delay)
    {
      this.delay := Delay(delay);
      armed, lastEvent, lastPath, count, stopped := false, 0, "", 0, false;
      pending, bursts, discarded, accepted := [], [], [], [];
    }

    method Notify(path: string, at: int)
      requires Valid()
      modifies this
      ensures Valid() && stopped == old(stopped) && bursts == old(bursts)
      ensures stopped ==> accepted == old(accepted)
      ensures !stopped ==> armed && accepted == old(accepted) + [Event(path, at)]
      ensures !stopped ==> pending == old(pending) + [Event(path, at)]
    {
      if stopped {
        return;
      }
      lastEvent, lastPath, count := at, path, count + 1;
      armed := true;
      pending, accepted := pending + [Event(path, at)], accepted + [Event(path, at)];
    }

    /** It fires exactly when a burst is pending whose last event is a full delay ago; the trigger then stands for
        all that was pending. */
    method OnElapsed(now: int) returns (fired: Option<Trigger>)
      requires Valid()
      modifies this
      ensures Valid() && stopped == old(stopped) && accepted == old(accepted)
      ensures fired.Some? <==> old(count) > 0 && now - old(lastEvent) >= delay
      ensures fired.Some? ==> now - fired.value.at >= delay
      ensures fired.None? ==> bursts == old(bursts) && pending == old(pending)
      ensures fired.Some? ==>
              bursts == old(bursts) + [old(pending)] && pending == [] && TriggerOf(old(pending), fired.value)
    {
      if stopped || count == 0 {
        armed := false;
        return None;
      }
      if delay - (now - lastEvent) > 0 {
        return None;
      }
      fired := Some(Trigger(lastPath, lastEvent, count));
      ConcatAppend(bursts, pending);
      bursts, pending := bursts + [pending], [];
      count, lastPath, armed := 0, "", false;
    }

    method Stop()
      requires Valid()
      modifies this
      ensures Valid() && stopped && !armed && accepted == old(accepted) && bursts == old(bursts)
      ensures discarded == old(pending) + old(discarded)
    {
      stopped, armed, count, lastPath := true, false, 0, "";
      discarded, pending := pending + discarded, [];
    }
  }

  predicate TriggerOf(burst: seq<Event>, t: Trigger) {
    |burst| > 0 && t == Trigger(burst[|burst| - 1].path, burst[|burst| - 1].at, |burst|)
  }

  function Concat(bursts: seq<seq<Event>>): seq<Event> {
    if bursts == [] then [] else bursts[0] + Concat(bursts[1..])
  }

  lemma {:induction false} ConcatAppend(bursts: seq<seq<Event>>, b: seq<Event>)
    ensures Concat(bursts + [b]) == Concat(bursts) + b
  {
    if bursts == [] {
      assert bursts + [b] == [b] && [b][1..] == [];
    } else {
      assert (bursts + [b])[1..] == bursts[1..] + [b];
      ConcatAppend(bursts[1..], b);
    }
  }

  // ----- Whole runs -----

  datatype Op = Notify(path: string, at: int) | Elapse(now: int) | Stop

  /** The events a run of operations accepts: those notified before the first stop. */
  function Accepted(ops: seq<Op>): seq<Event> {
    if ops == [] || ops[0].Stop? then []
    else (if ops[0].Notify? then [Event(ops[0].path, ops[0].at)] else []) + Accepted(ops[1..])
  }

  lemma {:induction false} AcceptedAppend(ops: seq<Op>, op: Op)
    ensures Accepted(ops + [op]) ==
              Accepted(ops) + if op.Notify? && !Stops(ops) then [Event(op.path, op.at)] else []
    ensures Stops(ops + [op]) == (Stops(ops) || op.Stop?)
  {
    if ops == [] {
      assert ops + [op] == [op] && [op][1..] == [];
    } else {
      assert (ops + [op])[0] == ops[0] && (ops + [op])[1..] == ops[1..] + [op];
      AcceptedAppend(ops[1..], op);
      assert forall o :: o in ops <==> o == ops[0] || o in ops[1..];
    }
  }

  predicate Stops(ops: seq<Op>) {
    exists o :: o in ops && o.Stop?
  }

  /** One operation, and the trigger it fires. */
  method Perform(d: Debouncer, op: Op) returns (fired: Option<Trigger>)
    requires d.Valid()
    modifies d
    ensures d.Valid() && d.stopped == (old(d.stopped) || op.Stop?)
    ensures d.accepted == old(d.accepted) +
                          if op.Notify? && !old(d.stopped) then [Event(op.path, op.at)] else []
    ensures fired.None? ==> d.bursts == old(d.bursts)
    ensures fired.Some? ==>
              && op.Elapse? && op.now - fired.value.at >= d.delay
              && exists b :: d.bursts == old(d.bursts) + [b] && TriggerOf(b, fired.value)
  {
    fired := None;
    match op
    case Notify(path, at) => d.Notify(path, at);
    case Elapse(now) => fired := d.OnElapsed(now);
    case Stop => d.Stop();
  }

  /** Any run, with wake-ups at any times: the accepted events are cut, in order, into the bursts of the triggers
      fired, then those still pending or discarded by a stop. None is in two, none is lost. */
  method Drive(delay: int, ops: seq<Op>)
    returns (triggers: seq<Trigger>, firedAt: seq<int>, ghost bursts: seq<seq<Event>>, ghost rest: seq<Event>,
             armed: bool)
    ensures |bursts| == |triggers| && forall i :: 0 <= i < |triggers| ==> TriggerOf(bursts[i], triggers[i])
    ensures |firedAt| == |triggers| && forall i :: 0 <= i < |triggers| ==> firedAt[i] - triggers[i].at >= Delay(delay)
    ensures Accepted(ops) == Concat(bursts) + rest
    ensures armed ==> rest != []
    ensures !Stops(ops) ==> (armed <==> rest != [])
  {
    assert Accepted([]) == [];
    hide TriggerOf, Concat, Accepted, Stops;
    var d := new Debouncer(delay);
    triggers, firedAt := [], [];
    NoStopYet();
    for i := 0 to |ops|
      invariant d.Valid() && fresh(d) && d.stopped == Stops(ops[..i])
      invariant |d.bursts| == |triggers| && forall k :: 0 <= k < |triggers| ==> TriggerOf(d.bursts[k], triggers[k])
      invariant d.accepted == Accepted(ops[..i]) && d.delay == Delay(delay)
      invariant |firedAt| == |triggers| && forall k :: 0 <= k < |triggers| ==> firedAt[k] - triggers[k].at >= d.delay
    {
      AcceptedAppend(ops[..i], ops[i]);
      assert ops[..i + 1] == ops[..i] + [ops[i]];
      var fired := Perform(d, ops[i]);
      if fired.Some? {
        triggers, firedAt := triggers + [fired.value], firedAt + [ops[i].now];
      }
    }
    assert ops[..|ops|] == ops;
    bursts, rest, armed := d.bursts, d.pending + d.discarded, d.armed;
  }

  lemma NoStopYet()
    ensures !Stops([])
  {
  }
}

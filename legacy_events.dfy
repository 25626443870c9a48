/** How the earlier revision's get() registers listeners, and what happens
    when events are later dispatched on the element it returns.

    A listener record with `once: false` is registered as its callback. A
    record with `once: true` is registered as a fresh wrapper that first
    removes itself from the element and then calls the callback, so each
    such record makes the callback run on the first event of that type and
    on no later one; a callback also stored with `once: false` for the same
    type runs on later events through that other record. Event
    dispatch itself belongs to the browser; it is abstracted here as calling
    the registrations of the event's type in registration order. */
module LegacyEvents {
  import opened DomTree
  import opened LegacyOptions

  /** What get() passes to addEventListener for one listener record. */
  datatype Registration = Direct(event: string, cb: Callback) | SelfRemoving(event: string, cb: Callback)

  /** The registration for one record: the callback itself, or a
      self-removing wrapper around it for a `once` record. */
  function Register(l: Listener): Registration
  {
    if l.once then SelfRemoving(l.event, l.cb) else Direct(l.event, l.cb)
  }

  /** The registrations for a list of listener records, in order. */
  function Registered(ls: seq<Listener>): seq<Registration>
  {
    seq(|ls|, i requires 0 <= i < |ls| => Register(ls[i]))
  }

  /** One call of a user callback, for an event of the given type. */
  datatype Invocation = Invocation(event: string, cb: Callback)

  /** The callbacks invoked, in order, and the registrations left on the element. */
  datatype Fired = Fired(invoked: seq<Invocation>, left: seq<Registration>)

  /** Dispatching one event of type `event`: each registration of that type
      is called in order; a self-removing one takes itself off first. */
  function Fire(regs: seq<Registration>, event: string): (f: Fired)
    decreases |regs|
  {
    if regs == [] then Fired([], [])
    else
      var h := regs[0];
      var rest := Fire(regs[1..], event);
      if h.event != event then Fired(rest.invoked, [h] + rest.left)
      else if h.Direct? then Fired([Invocation(event, h.cb)] + rest.invoked, [h] + rest.left)
      else Fired([Invocation(event, h.cb)] + rest.invoked, rest.left)
  }

  /** Dispatching a series of events, one after the other. */
  function DispatchAll(regs: seq<Registration>, events: seq<string>): (d: Fired)
    decreases |events|
  {
    if events == [] then Fired([], regs)
    else
      var f := Fire(regs, events[0]);
      var d := DispatchAll(f.left, events[1..]);
      Fired(f.invoked + d.invoked, d.left)
  }

  /** One dispatch leaves every registration in place except the
      self-removing ones of the dispatched type, which are all gone. */
  lemma {:induction false} FireLeft(regs: seq<Registration>, event: string, x: Registration)
    ensures multiset(Fire(regs, event).left)[x]
         == if x.SelfRemoving? && x.event == event then 0 else multiset(regs)[x]
    decreases |regs|
  {
    if regs != [] {
      FireLeft(regs[1..], event, x);
      assert regs == [regs[0]] + regs[1..];
    }
  }

  /** One dispatch calls a callback once for each registration of it, direct
      or self-removing, under the dispatched type, and only callbacks of
      that type. */
  lemma {:induction false} FireInvoked(regs: seq<Registration>, event: string, e: string, cb: Callback)
    ensures multiset(Fire(regs, event).invoked)[Invocation(e, cb)]
         == if e == event then multiset(regs)[Direct(e, cb)] + multiset(regs)[SelfRemoving(e, cb)] else 0
    decreases |regs|
  {
    if regs != [] {
      FireInvoked(regs[1..], event, e, cb);
      assert regs == [regs[0]] + regs[1..];
    }
  }

  /** How often `cb` runs for events of type `e` over a series of
      dispatches: every time for each direct registration, and only on the
      first event of that type for each self-removing one. */
  lemma {:induction false} DispatchCount(regs: seq<Registration>, events: seq<string>, e: string, cb: Callback)
    ensures multiset(DispatchAll(regs, events).invoked)[Invocation(e, cb)]
         == multiset(events)[e] * multiset(regs)[Direct(e, cb)]
            + (if e in events then multiset(regs)[SelfRemoving(e, cb)] else 0)
    decreases |events|
  {
    if events != [] {
      var ev := events[0];
      var f := Fire(regs, ev);
      var rest := events[1..];
      var call := Invocation(e, cb);
      assert events == [ev] + rest;
      assert DispatchAll(regs, events).invoked == f.invoked + DispatchAll(f.left, rest).invoked;
      DispatchCount(f.left, rest, e, cb);
      FireInvoked(regs, ev, e, cb);
      FireLeft(regs, ev, Direct(e, cb));
      FireLeft(regs, ev, SelfRemoving(e, cb));
      var k := multiset(rest)[e];
      var direct := multiset(regs)[Direct(e, cb)];
      var total := multiset(f.invoked)[call] + multiset(DispatchAll(f.left, rest).invoked)[call];
      if ev == e {
        assert multiset(events)[e] == 1 + k;
        assert total == direct + multiset(regs)[SelfRemoving(e, cb)] + k * direct;
        MulSucc(k, direct);
      } else {
        assert multiset(events)[e] == k;
        assert (e in events) == (e in rest);
      }
    }
  }

  lemma MulSucc(k: nat, d: nat)
    ensures (1 + k) * d == d + k * d
  {
  }

  /** How many direct and self-removing registrations get() makes for a
      callback under an event type: one per `on` record and one per `once`
      record respectively. */
  lemma {:induction false} RegisteredCounts(ls: seq<Listener>, e: string, cb: Callback)
    ensures multiset(Registered(ls))[Direct(e, cb)] == multiset(ls)[Listener(e, cb, false)]
    ensures multiset(Registered(ls))[SelfRemoving(e, cb)] == multiset(ls)[Listener(e, cb, true)]
    decreases |ls|
  {
    if ls != [] {
      var init := ls[..|ls| - 1];
      var last := ls[|ls| - 1];
      assert ls == init + [last];
      assert Registered(ls) == Registered(init) + [Register(last)];
      RegisteredCounts(init, e, cb);
    }
  }

  /** Bound with `on`, a callback runs on every event of its type. Bound
      with `once` (and not also with `on` for the same type), it runs at
      most once per `once` record, however many events follow: once for
      each such record when an event of its type occurs, otherwise never. */
  lemma ListenerInvocations(ls: seq<Listener>, events: seq<string>, e: string, cb: Callback)
    ensures multiset(DispatchAll(Registered(ls), events).invoked)[Invocation(e, cb)]
         == multiset(events)[e] * multiset(ls)[Listener(e, cb, false)]
            + (if e in events then multiset(ls)[Listener(e, cb, true)] else 0)
    ensures Listener(e, cb, false) !in ls ==>
      multiset(DispatchAll(Registered(ls), events).invoked)[Invocation(e, cb)]
      <= multiset(ls)[Listener(e, cb, true)]
  {
    DispatchCount(Registered(ls), events, e, cb);
    RegisteredCounts(ls, e, cb);
  }

  /** A callback stored by `once` (and not also by `on` for the same type)
      does not run before the first event of its type, runs on that event
      once per `once` record, and never again, whatever events follow. */
  lemma OnceRunsOnFirstEvent(ls: seq<Listener>, before: seq<string>, after: seq<string>, e: string, cb: Callback)
    requires e !in before && Listener(e, cb, false) !in ls
    ensures multiset(DispatchAll(Registered(ls), before).invoked)[Invocation(e, cb)] == 0
    ensures multiset(DispatchAll(Registered(ls), before + [e]).invoked)[Invocation(e, cb)]
         == multiset(ls)[Listener(e, cb, true)]
    ensures multiset(DispatchAll(Registered(ls), before + [e] + after).invoked)[Invocation(e, cb)]
         == multiset(ls)[Listener(e, cb, true)]
  {
    ListenerInvocations(ls, before, e, cb);
    ListenerInvocations(ls, before + [e], e, cb);
    ListenerInvocations(ls, before + [e] + after, e, cb);
    assert (before + [e])[|before|] == e;
    assert (before + [e] + after)[|before|] == e;
  }
}

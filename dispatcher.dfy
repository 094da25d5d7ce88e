/** The event dispatcher: a registry from event types to handlers, a bounded
    FIFO queue fed by asynchronous hand-offs, a single consumer loop that runs
    every handler of an event before taking the next one, and two counters.

    Concurrency is replaced by explicit steps that the environment interleaves:
    `Dispatch` (the caller's side), `Deliver` (a hand-off goroutine pushing into
    the buffered channel), `HandOff` (a hand-off goroutine passing its event
    straight to the waiting loop), and `ProcessNext` / `Drain` (the loop). */
module Dispatcher {
  import opened Events
  import opened Handlers

  type Registry = map<EventType, seq<HandlerRef>>

  /** The handlers registered for `t`, in registration order. */
  function Lookup(reg: Registry, t: EventType): seq<HandlerRef>
  {
    if t in reg then reg[t] else []
  }

  /** Registration appends, without a duplicate check. */
  function Register(reg: Registry, t: EventType, h: HandlerRef): Registry
  {
    reg[t := Lookup(reg, t) + [h]]
  }

  /** `h` goes to the end of `t`'s handlers, and every other type keeps its own. */
  lemma RegisterAppends(reg: Registry, t: EventType, h: HandlerRef)
    ensures Lookup(Register(reg, t, h), t) == Lookup(reg, t) + [h]
    ensures forall u :: u != t ==> Lookup(Register(reg, t, h), u) == Lookup(reg, u)
    ensures Register(reg, t, h).Keys == reg.Keys + {t}
  {
  }

  /** Registering the same handler twice for one type yields two invocations. */
  lemma RegisterTwice(reg: Registry, t: EventType, h: HandlerRef)
    ensures Lookup(Register(Register(reg, t, h), t, h), t) == Lookup(reg, t) + [h, h]
    ensures multiset(Lookup(Register(Register(reg, t, h), t, h), t))[h] == multiset(Lookup(reg, t))[h] + 2
  {
    assert Lookup(reg, t) + [h] + [h] == Lookup(reg, t) + [h, h];
  }

  lemma RemoveOne(p: multiset<Event>, e: Event)
    requires e in p
    ensures |p - multiset{e}| + 1 == |p|
  {
    assert p == (p - multiset{e}) + multiset{e};
  }

  /** Calls `h` through the handler interface, whose outcome may be a failure;
      every other handler of `gs` is untouched. */
  method InvokeAt(ghost gs: set<HandlerRef>, h: HandlerRef, e: Event) returns (r: Outcome)
    modifies h.Obj()
    ensures forall g :: g in gs ==> g.State() == if g == h then Step(old(g.State()), e) else old(g.State())
  {
    r := Invoke(h, e);
    forall g | g in gs
      ensures g.State() == if g == h then Step(old(g.State()), e) else old(g.State())
    {
      ObjInjective(g, h);
    }
  }

  /** Taking one more handler of `hs` applies it once more. */
  lemma StepOneMore(hs: seq<HandlerRef>, i: nat, g: HandlerRef, s: HandlerState, e: Event)
    requires i < |hs|
    ensures StepTimes(s, e, multiset(hs[..i + 1])[g])
         == if g == hs[i] then Step(StepTimes(s, e, multiset(hs[..i])[g]), e) else StepTimes(s, e, multiset(hs[..i])[g])
  {
    assert hs[..i + 1] == hs[..i] + [hs[i]];
  }

  /** One call of `Handle` as the loop makes it. */
  datatype Invocation = Invocation(handler: HandlerRef, event: Event)

  /** The calls made for one event: each handler of the sequence once, with
      that exact event. */
  function Calls(hs: seq<HandlerRef>, e: Event): (cs: seq<Invocation>)
    ensures |cs| == |hs|
    ensures forall k :: 0 <= k < |cs| ==> cs[k] == Invocation(hs[k], e)
  {
    seq(|hs|, k requires 0 <= k < |hs| => Invocation(hs[k], e))
  }

  lemma CallsExtend(hs: seq<HandlerRef>, i: nat, e: Event)
    requires i < |hs|
    ensures Calls(hs[..i + 1], e) == Calls(hs[..i], e) + [Invocation(hs[i], e)]
  {
    var a, b := Calls(hs[..i + 1], e), Calls(hs[..i], e) + [Invocation(hs[i], e)];
    assert |a| == |b|;
    forall k | 0 <= k < |a| ensures a[k] == b[k] {
    }
  }

  /** Counted without regard to order, one event's calls pair each handler with
      that event once per time it is registered, and contain no other call. */
  lemma {:induction false} CallsCount(hs: seq<HandlerRef>, e: Event, c: Invocation)
    ensures multiset(Calls(hs, e))[c] == if c.event == e then multiset(hs)[c.handler] else 0
    decreases |hs|
  {
    if hs == [] {
      assert Calls(hs, e) == [];
    } else {
      var n := |hs| - 1;
      CallsExtend(hs, n, e);
      assert hs[..n + 1] == hs;
      CallsCount(hs[..n], e, c);
      assert hs == hs[..n] + [hs[n]];
    }
  }

  /** The calls made for a sequence of processed events, event after event. */
  function CallLog(reg: Registry, es: seq<Event>): seq<Invocation>
  {
    if es == [] then []
    else CallLog(reg, es[..|es| - 1]) + Calls(Lookup(reg, es[|es| - 1].eventType), es[|es| - 1])
  }

  /** The number of handler registrations matching the processed events. */
  function TotalInvocations(reg: Registry, es: seq<Event>): nat
  {
    if es == [] then 0
    else TotalInvocations(reg, es[..|es| - 1]) + |Lookup(reg, es[|es| - 1].eventType)|
  }

  lemma {:induction false} CallLogLength(reg: Registry, es: seq<Event>)
    ensures |CallLog(reg, es)| == TotalInvocations(reg, es)
  {
    if es != [] {
      CallLogLength(reg, es[..|es| - 1]);
    }
  }

  lemma {:induction false} LogAppend(reg: Registry, a: seq<Event>, b: seq<Event>)
    ensures CallLog(reg, a + b) == CallLog(reg, a) + CallLog(reg, b)
    decreases |b|
  {
    if b == [] {
      assert a + b == a;
    } else {
      var b', x := b[..|b| - 1], b[|b| - 1];
      assert a + b == (a + b') + [x];
      assert (a + b)[..|a + b| - 1] == a + b';
      LogAppend(reg, a, b');
    }
  }

  lemma {:induction false} TotalsAppend(reg: Registry, a: seq<Event>, b: seq<Event>)
    ensures TotalInvocations(reg, a + b) == TotalInvocations(reg, a) + TotalInvocations(reg, b)
    decreases |b|
  {
    if b == [] {
      assert a + b == a;
    } else {
      var b', x := b[..|b| - 1], b[|b| - 1];
      assert a + b == (a + b') + [x];
      assert (a + b)[..|a + b| - 1] == a + b';
      TotalsAppend(reg, a, b');
    }
  }

  /** The calls and the count for two batches in turn are those of the first
      batch followed by those of the second. */
  lemma CallLogAppend(reg: Registry, a: seq<Event>, b: seq<Event>)
    ensures CallLog(reg, a + b) == CallLog(reg, a) + CallLog(reg, b)
    ensures TotalInvocations(reg, a + b) == TotalInvocations(reg, a) + TotalInvocations(reg, b)
  {
    LogAppend(reg, a, b);
    TotalsAppend(reg, a, b);
  }

  /** Processing one more event adds its handlers' calls to the log. */
  lemma LogExtend(reg: Registry, es: seq<Event>, e: Event)
    ensures CallLog(reg, es + [e]) == CallLog(reg, es) + Calls(Lookup(reg, e.eventType), e)
    ensures TotalInvocations(reg, es + [e]) == TotalInvocations(reg, es) + |Lookup(reg, e.eventType)|
  {
    assert (es + [e])[..|es|] == es;
  }

  /** An event of a type with no registration makes no call and adds nothing. */
  lemma UnregisteredTypeIsSilent(reg: Registry, es: seq<Event>, e: Event)
    requires e.eventType !in reg
    ensures CallLog(reg, es + [e]) == CallLog(reg, es)
    ensures TotalInvocations(reg, es + [e]) == TotalInvocations(reg, es)
  {
    assert (es + [e])[..|es|] == es;
  }

  /** A handler's state after the loop has processed `es`: every event applies
      the handler once per time it is registered for the event's type. */
  ghost function StateAfter(reg: Registry, h: HandlerRef, s: HandlerState, es: seq<Event>): HandlerState
  {
    if es == [] then s
    else
      var e := es[|es| - 1];
      StepTimes(StateAfter(reg, h, s, es[..|es| - 1]), e, multiset(Lookup(reg, e.eventType))[h])
  }

  lemma StateAfterExtend(reg: Registry, h: HandlerRef, s: HandlerState, es: seq<Event>, e: Event)
    ensures StateAfter(reg, h, s, es + [e]) == StepTimes(StateAfter(reg, h, s, es), e, multiset(Lookup(reg, e.eventType))[h])
  {
    assert (es + [e])[..|es|] == es;
  }

  /** The calls for `a` then `b` move a handler as the calls for `a` and then,
      from there, the calls for `b`. */
  lemma {:induction false} StateAfterAppend(reg: Registry, h: HandlerRef, s: HandlerState, a: seq<Event>, b: seq<Event>)
    ensures StateAfter(reg, h, s, a + b) == StateAfter(reg, h, StateAfter(reg, h, s, a), b)
    decreases |b|
  {
    if b == [] {
      assert a + b == a;
    } else {
      var b', x := b[..|b| - 1], b[|b| - 1];
      assert a + b == (a + b') + [x];
      assert (a + b)[..|a + b| - 1] == a + b';
      StateAfterAppend(reg, h, s, a, b');
    }
  }

  /** `k` calls with one event may come before or after one call with another. */
  lemma {:induction false} StepTimesStep(s: HandlerState, x: Event, k: nat, y: Event)
    ensures Step(StepTimes(s, x, k), y) == StepTimes(Step(s, y), x, k)
  {
    if k > 0 {
      StepTimesStep(s, x, k - 1, y);
      StepCommutes(StepTimes(s, x, k - 1), x, y);
    }
  }

  /** Repeated calls with two events commute as blocks. */
  lemma {:induction false} StepTimesCommute(s: HandlerState, x: Event, kx: nat, y: Event, ky: nat)
    ensures StepTimes(StepTimes(s, x, kx), y, ky) == StepTimes(StepTimes(s, y, ky), x, kx)
    decreases ky
  {
    if ky > 0 {
      StepTimesCommute(s, x, kx, y, ky - 1);
      StepTimesStep(StepTimes(s, y, ky - 1), x, kx, y);
    }
  }

  /** Calls with one event made before a whole batch have the effect they would
      have after it. */
  lemma {:induction false} StateAfterFirst(reg: Registry, h: HandlerRef, s: HandlerState, x: Event, k: nat, a: seq<Event>)
    ensures StateAfter(reg, h, StepTimes(s, x, k), a) == StepTimes(StateAfter(reg, h, s, a), x, k)
  {
    if a != [] {
      var a', y := a[..|a| - 1], a[|a| - 1];
      StateAfterFirst(reg, h, s, x, k, a');
      StepTimesCommute(StateAfter(reg, h, s, a'), x, k, y, multiset(Lookup(reg, y.eventType))[h]);
    }
  }

  /** The order in which the loop takes a collection of events changes no
      handler's final state: any two orderings of the same events agree. */
  lemma {:induction false} StateAfterReorder(reg: Registry, h: HandlerRef, s: HandlerState, a: seq<Event>, b: seq<Event>)
    requires multiset(a) == multiset(b)
    ensures StateAfter(reg, h, s, a) == StateAfter(reg, h, s, b)
    decreases |b|
  {
    if b == [] {
      assert |a| == |multiset(a)| == 0;
    } else {
      var b', x := b[..|b| - 1], b[|b| - 1];
      assert b == b' + [x];
      assert x in multiset(a);
      var i :| 0 <= i < |a| && a[i] == x;
      var a1, a2 := a[..i], a[i + 1..];
      assert a == a1 + [x] + a2;
      RemoveAt(a, i, b', x);
      StateAfterReorder(reg, h, s, a1 + a2, b');
      var k := multiset(Lookup(reg, x.eventType))[h];
      StateAfterExtend(reg, h, s, b', x);
      StateAfterAppend(reg, h, s, a1 + [x], a2);
      StateAfterExtend(reg, h, s, a1, x);
      StateAfterFirst(reg, h, StateAfter(reg, h, s, a1), x, k, a2);
      StateAfterAppend(reg, h, s, a1, a2);
    }
  }

  /** The order in which the loop takes a collection of events does not change
      the processed count. */
  lemma {:induction false} TotalsReorder(reg: Registry, a: seq<Event>, b: seq<Event>)
    requires multiset(a) == multiset(b)
    ensures TotalInvocations(reg, a) == TotalInvocations(reg, b)
    decreases |b|
  {
    if b == [] {
      assert |a| == |multiset(a)| == 0;
    } else {
      var b', x := b[..|b| - 1], b[|b| - 1];
      assert b == b' + [x];
      assert x in multiset(a);
      var i :| 0 <= i < |a| && a[i] == x;
      var a1, a2 := a[..i], a[i + 1..];
      assert a == (a1 + [x]) + a2;
      RemoveAt(a, i, b', x);
      TotalsReorder(reg, a1 + a2, b');
      CallLogAppend(reg, a1 + [x], a2);
      CallLogAppend(reg, a1, [x]);
      CallLogAppend(reg, a1, a2);
      CallLogAppend(reg, b', [x]);
    }
  }

  lemma SwapUnion(p: multiset<Invocation>, q: multiset<Invocation>, r: multiset<Invocation>)
    ensures p + q + r == p + r + q
  {
  }

  /** The order in which the loop takes a collection of events does not change
      which calls are made, counted without regard to order. */
  lemma {:induction false} CallLogReorder(reg: Registry, a: seq<Event>, b: seq<Event>)
    requires multiset(a) == multiset(b)
    ensures multiset(CallLog(reg, a)) == multiset(CallLog(reg, b))
    decreases |b|
  {
    if b == [] {
      assert |a| == |multiset(a)| == 0;
    } else {
      var b', x := b[..|b| - 1], b[|b| - 1];
      assert b == b' + [x];
      assert x in multiset(a);
      var i :| 0 <= i < |a| && a[i] == x;
      var a1, a2 := a[..i], a[i + 1..];
      assert a == (a1 + [x]) + a2;
      RemoveAt(a, i, b', x);
      CallLogReorder(reg, a1 + a2, b');
      CallLogAppend(reg, a1 + [x], a2);
      CallLogAppend(reg, a1, [x]);
      CallLogAppend(reg, a1, a2);
      CallLogAppend(reg, b', [x]);
      var l1, lx, l2 := CallLog(reg, a1), CallLog(reg, [x]), CallLog(reg, a2);
      calc {
        multiset(CallLog(reg, a));
        multiset(l1 + lx + l2);
        multiset(l1) + multiset(lx) + multiset(l2);
        { SwapUnion(multiset(l1), multiset(lx), multiset(l2)); }
        multiset(l1) + multiset(l2) + multiset(lx);
        multiset(l1 + l2) + multiset(lx);
        multiset(CallLog(reg, b')) + multiset(lx);
        multiset(CallLog(reg, b') + lx);
      }
    }
  }

  /** A handler that no processed event's type lists keeps its state. */
  lemma {:induction false} StateAfterUntouched(reg: Registry, h: HandlerRef, s: HandlerState, es: seq<Event>)
    requires forall k :: 0 <= k < |es| ==> h !in Lookup(reg, es[k].eventType)
    ensures StateAfter(reg, h, s, es) == s
  {
    if es != [] {
      StateAfterUntouched(reg, h, s, es[..|es| - 1]);
    }
  }


  class EventDispatcher {
    const bufferSize: nat
    var registry: Registry
    /** Hand-off goroutines started by `Dispatch` that have not pushed yet. */
    var pending: multiset<Event>
    /** The buffered channel, front first. */
    var queue: seq<Event>
    var eventsDispatched: int
    var eventsProcessed: int
    var started: bool
    var closed: bool
    /** The events the loop has taken, in the order it took them. */
    ghost var processedEvents: seq<Event>
    /** Every `Handle` call the loop has made, in order. */
    ghost var invocations: seq<Invocation>
    /** Every handler that has been registered. */
    ghost var refs: set<HandlerRef>
    /** The objects behind `refs`: what handling may change. */
    ghost var handlerObjects: set<object>

    ghost predicate Valid()
      reads this
    {
      && |queue| <= bufferSize
      && (forall t :: t in registry ==> registry[t] != [])
      && (forall t, h :: t in registry && h in registry[t] ==> h in refs)
      && (forall g :: g in refs ==> g.Obj() in handlerObjects)
      && this !in handlerObjects
      && (!started ==> processedEvents == [])
      && (closed ==> pending == multiset{})
      && eventsDispatched == |pending| + |queue| + |processedEvents|
      && eventsProcessed == TotalInvocations(registry, processedEvents)
      && invocations == CallLog(registry, processedEvents)
    }

    /** The processed counter counts handler calls, not events. */
    lemma ProcessedCountsCalls()
      requires Valid()
      ensures eventsProcessed == |invocations|
    {
      CallLogLength(registry, processedEvents);
    }

    constructor (bufferSize: nat)
      ensures Valid()
      ensures this.bufferSize == bufferSize
      ensures registry == map[] && pending == multiset{} && queue == []
      ensures eventsDispatched == 0 && eventsProcessed == 0
      ensures !started && !closed
      ensures processedEvents == [] && invocations == [] && refs == {} && handlerObjects == {}
    {
      this.bufferSize := bufferSize;
      registry := map[];
      pending := multiset{};
      queue := [];
      eventsDispatched := 0;
      eventsProcessed := 0;
      started := false;
      closed := false;
      processedEvents := [];
      invocations := [];
      refs := {};
      handlerObjects := {};
    }

    /** Adds `h` at the end of `t`'s handlers; only before the loop starts. */
    method RegisterHandler(t: EventType, h: HandlerRef)
      requires Valid() && !started
      modifies this`registry, this`refs, this`handlerObjects
      ensures Valid()
      ensures registry == Register(old(registry), t, h)
      ensures refs == old(refs) + {h} && handlerObjects == old(handlerObjects) + {h.Obj()}
    {
      registry := registry[t := Lookup(registry, t) + [h]];
      NotThis(h);
      refs := refs + {h};
      handlerObjects := handlerObjects + {h.Obj()};
    }

    /** Records the submission and starts its hand-off to the queue. */
    method Dispatch(e: Event)
      requires Valid() && !closed
      modifies this`eventsDispatched, this`pending
      ensures Valid()
      ensures eventsDispatched == old(eventsDispatched) + 1
      ensures pending == old(pending) + multiset{e}
    {
      eventsDispatched := eventsDispatched + 1;
      pending := pending + multiset{e};
    }

    /** A hand-off goroutine pushes its event into a free buffer slot. Pending
        hand-offs may run in any order, so queue order need not be call order. */
    method Deliver(e: Event)
      requires Valid() && e in pending && |queue| < bufferSize
      modifies this`pending, this`queue
      ensures Valid()
      ensures queue == old(queue) + [e]
      ensures pending == old(pending) - multiset{e}
    {
      pending := pending - multiset{e};
      queue := queue + [e];
    }

    /** Starts the single consumer loop. */
    method Start()
      requires Valid() && !started
      modifies this`started
      ensures Valid() && started
    {
      started := true;
    }

    /** No handler is the dispatcher itself. */
    lemma NotThis(h: HandlerRef)
      ensures h.Obj() != this
    {
    }

    /** One handler goroutine: calls the `i`th handler, reports a failure, and
        counts the call whatever its outcome. `start` holds the states the
        handlers of `gs` had before the first handler of `hs` ran. */
    method InvokeAndCount(ghost gs: set<HandlerRef>, hs: seq<HandlerRef>, i: nat, e: Event, ghost start: map<HandlerRef, HandlerState>)
      requires i < |hs|
      requires forall g :: g in gs ==> g in start && g.State() == StepTimes(start[g], e, multiset(hs[..i])[g])
      modifies this`eventsProcessed, this`invocations, hs[i].Obj()
      ensures eventsProcessed == old(eventsProcessed) + 1
      ensures invocations == old(invocations) + [Invocation(hs[i], e)]
      ensures forall g :: g in gs ==> g.State() == StepTimes(start[g], e, multiset(hs[..i + 1])[g])
    {
      var r := InvokeAt(gs, hs[i], e);
      // A failure is only reported; siblings still run.
      eventsProcessed := eventsProcessed + 1;
      invocations := invocations + [Invocation(hs[i], e)];
      forall g | g in gs
        ensures g.State() == StepTimes(start[g], e, multiset(hs[..i + 1])[g])
      {
        NotThis(g);
        StepOneMore(hs, i, g, start[g], e);
      }
    }

    /** The handler goroutines of one event and the wait for all of them: each
        registered handler ends up applied once per time it is registered for
        the event's type, and no other handler changes. */
    method FanOut(e: Event)
      requires forall h :: h in Lookup(registry, e.eventType) ==> h in refs
      requires forall g :: g in refs ==> g.Obj() in handlerObjects
      requires this !in handlerObjects
      modifies this`eventsProcessed, this`invocations, handlerObjects
      ensures eventsProcessed == old(eventsProcessed) + |Lookup(registry, e.eventType)|
      ensures invocations == old(invocations) + Calls(Lookup(registry, e.eventType), e)
      ensures forall g :: g in refs ==>
                g.State() == StepTimes(old(g.State()), e, multiset(Lookup(registry, e.eventType))[g])
    {
      var hs := Lookup(registry, e.eventType);
      ghost var start := map g | g in refs :: g.State();
      var i := 0;
      while i < |hs|
        invariant 0 <= i <= |hs|
        invariant eventsProcessed == old(eventsProcessed) + i
        invariant invocations == old(invocations) + Calls(hs[..i], e)
        invariant forall g :: g in refs ==> g in start && g.State() == StepTimes(start[g], e, multiset(hs[..i])[g])
      {
        InvokeAndCount(refs, hs, i, e, start);
        CallsExtend(hs, i, e);
        i := i + 1;
      }
      assert hs[..i] == hs;
    }

    /** Runs every handler registered for `e` once, counting each call whatever
        its outcome, and returns when all of them have finished. */
    method ProcessEvent(e: Event)
      requires eventsProcessed == TotalInvocations(registry, processedEvents)
      requires invocations == CallLog(registry, processedEvents)
      requires forall h :: h in Lookup(registry, e.eventType) ==> h in refs
      requires forall g :: g in refs ==> g.Obj() in handlerObjects
      requires this !in handlerObjects
      modifies this`eventsProcessed, this`invocations, this`processedEvents, handlerObjects
      ensures processedEvents == old(processedEvents) + [e]
      ensures eventsProcessed == old(eventsProcessed) + |Lookup(registry, e.eventType)|
      ensures invocations == old(invocations) + Calls(Lookup(registry, e.eventType), e)
      ensures eventsProcessed == TotalInvocations(registry, processedEvents)
      ensures invocations == CallLog(registry, processedEvents)
      ensures forall g :: g in refs ==>
                g.State() == StepTimes(old(g.State()), e, multiset(Lookup(registry, e.eventType))[g])
    {
      processedEvents := processedEvents + [e];
      forall g | g in refs
        ensures g.State() == old(g.State())
      {
        NotThis(g);
      }
      FanOut(e);
      LogExtend(registry, old(processedEvents), e);
    }

    /** One turn of the loop: takes the front of the queue and fans it out. */
    method ProcessNext() returns (e: Event)
      requires Valid() && started && queue != []
      modifies this`queue, this`eventsProcessed, this`invocations, this`processedEvents, handlerObjects
      ensures Valid()
      ensures e == old(queue[0]) && queue == old(queue[1..])
      ensures processedEvents == old(processedEvents) + [e]
      ensures eventsProcessed == old(eventsProcessed) + |Lookup(registry, e.eventType)|
      ensures invocations == old(invocations) + Calls(Lookup(registry, e.eventType), e)
      ensures forall g :: g in refs ==>
                g.State() == StepTimes(old(g.State()), e, multiset(Lookup(registry, e.eventType))[g])
    {
      e := queue[0];
      queue := queue[1..];
      forall g | g in refs
        ensures g.State() == old(g.State())
      {
        NotThis(g);
      }
      ProcessEvent(e);
    }

    /** The loop receives directly from a hand-off goroutine while its buffer
        is empty; this is the only way an event reaches an unbuffered loop. */
    method HandOff(e: Event)
      requires Valid() && started && queue == [] && e in pending
      modifies this`pending, this`eventsProcessed, this`invocations, this`processedEvents, handlerObjects
      ensures Valid()
      ensures pending == old(pending) - multiset{e}
      ensures processedEvents == old(processedEvents) + [e]
      ensures eventsProcessed == old(eventsProcessed) + |Lookup(registry, e.eventType)|
      ensures invocations == old(invocations) + Calls(Lookup(registry, e.eventType), e)
      ensures forall g :: g in refs ==>
                g.State() == StepTimes(old(g.State()), e, multiset(Lookup(registry, e.eventType))[g])
    {
      RemoveOne(pending, e);
      pending := pending - multiset{e};
      forall g | g in refs
        ensures g.State() == old(g.State())
      {
        NotThis(g);
      }
      ProcessEvent(e);
    }

    /** `Drain` so far: the events `done` have left the front of the queue `q0`
        and joined the processed events `p0`, and every handler is in the state
        that processing `done` from `start` gives. */
    ghost predicate DrainedSoFar(start: map<HandlerRef, HandlerState>, p0: seq<Event>, q0: seq<Event>, done: seq<Event>)
      reads this, handlerObjects
    {
      && q0 == done + queue
      && processedEvents == p0 + done
      && forall g :: g in refs ==> g in start && g.Obj() in handlerObjects && g.State() == StateAfter(registry, g, start[g], done)
    }

    /** One turn of `Drain`: the front of the queue is processed, and the
        progress of the loop moves on by that event. */
    method DrainStep(ghost start: map<HandlerRef, HandlerState>, ghost p0: seq<Event>, ghost q0: seq<Event>, ghost done: seq<Event>)
        returns (e: Event)
      requires Valid() && started && queue != []
      requires DrainedSoFar(start, p0, q0, done)
      modifies this`queue, this`eventsProcessed, this`invocations, this`processedEvents, handlerObjects
      ensures Valid()
      ensures DrainedSoFar(start, p0, q0, done + [e])
    {
      ghost var q := queue;
      e := ProcessNext();
      assert q == [e] + queue;
      assert q0 == (done + [e]) + queue;
      assert processedEvents == p0 + (done + [e]);
      forall g | g in refs
        ensures g.State() == StateAfter(registry, g, start[g], done + [e])
      {
        StateAfterExtend(registry, g, start[g], done, e);
      }
    }

    /** The loop run until the queue is empty: every queued event is processed
        in queue order, and each handler's state is the one `StateAfter` gives. */
    method Drain()
      requires Valid() && started
      modifies this`queue, this`eventsProcessed, this`invocations, this`processedEvents, handlerObjects
      ensures Valid() && queue == []
      ensures processedEvents == old(processedEvents) + old(queue)
      ensures eventsProcessed == old(eventsProcessed) + TotalInvocations(registry, old(queue))
      ensures invocations == old(invocations) + CallLog(registry, old(queue))
      ensures forall g :: g in refs ==> g.State() == StateAfter(registry, g, old(g.State()), old(queue))
    {
      ghost var start := map g | g in refs :: g.State();
      ghost var p0, q0 := processedEvents, queue;
      ghost var done: seq<Event> := [];
      assert q0 == done + queue && p0 == p0 + done;
      while queue != []
        invariant Valid() && DrainedSoFar(start, p0, q0, done)
        decreases |queue|
      {
        var e := DrainStep(start, p0, q0, done);
        done := done + [e];
      }
      assert done == q0;
      CallLogAppend(registry, p0, q0);
    }

    /** Closes the queue and reports the counters; it does not wait for the
        loop to drain. */
    method Stop() returns (dispatched: int, processed: int)
      requires Valid() && !closed && pending == multiset{}
      modifies this`closed
      ensures Valid() && closed
      ensures dispatched == eventsDispatched && processed == eventsProcessed
    {
      closed := true;
      dispatched := eventsDispatched;
      processed := eventsProcessed;
    }
  }
}

/** The concrete handlers. Three of them keep counters that `Handle` updates;
    the other three only report and are modelled as handlers that change
    nothing and succeed. */
module Handlers {
  import opened Events

  // ---------------------------------------------------------------------------
  // The value-level state machine that specifies the stateful handlers
  // ---------------------------------------------------------------------------

  /** The part of a handler's state that `Handle` changes. */
  datatype HandlerState =
    | UserCount(users: int)
    | AlertCount(alerts: int)
    | TypeCounts(counts: map<EventType, int>)
    | NoState

  /** How one event moves the user count: up on a creation, down on a deletion
      (with no lower bound), and only when the payload is a user record. */
  function UserDelta(e: Event): int
  {
    if e.eventType == UserCreated && e.payload.UserData? then 1
    else if e.eventType == UserDeleted && e.payload.UserData? then -1
    else 0
  }

  /** Any event carrying an inventory record raises an alert, whatever its type. */
  function AlertDelta(e: Event): int
  {
    if e.payload.InventoryData? then 1 else 0
  }

  /** A map lookup that yields the zero value for a missing key. */
  function Get(m: map<EventType, int>, t: EventType): int
  {
    if t in m then m[t] else 0
  }

  /** The per-type counters after `k` events of type `t`. */
  function Bumped(m: map<EventType, int>, t: EventType, k: nat): map<EventType, int>
  {
    if k == 0 then m else m[t := Get(m, t) + k]
  }

  /** The effect of one `Handle` call on a handler's state. */
  function Step(s: HandlerState, e: Event): HandlerState
  {
    match s
    case UserCount(n) => UserCount(n + UserDelta(e))
    case AlertCount(n) => AlertCount(n + AlertDelta(e))
    case TypeCounts(m) => TypeCounts(Bumped(m, e.eventType, 1))
    case NoState => NoState
  }

  /** The effect of `k` `Handle` calls with the same event. */
  function StepTimes(s: HandlerState, e: Event, k: nat): HandlerState
  {
    if k == 0 then s else Step(StepTimes(s, e, k - 1), e)
  }

  /** The effect of handling a sequence of events in order. */
  function Run(s: HandlerState, es: seq<Event>): HandlerState
  {
    if es == [] then s else Step(Run(s, es[..|es| - 1]), es[|es| - 1])
  }

  /** How many events of `es` have type `t` and a user record as payload. */
  function CountUserEvents(es: seq<Event>, t: EventType): nat
  {
    if es == [] then 0
    else CountUserEvents(es[..|es| - 1], t)
         + (if es[|es| - 1].eventType == t && es[|es| - 1].payload.UserData? then 1 else 0)
  }

  /** How many events of `es` carry an inventory record. */
  function CountInventoryEvents(es: seq<Event>): nat
  {
    if es == [] then 0
    else CountInventoryEvents(es[..|es| - 1]) + (if es[|es| - 1].payload.InventoryData? then 1 else 0)
  }

  /** The sum of the values of a map, in no particular key order. */
  ghost function MapSum(m: map<EventType, int>): int
    decreases |m|
  {
    if m == map[] then 0
    else
      assert exists k :: k in m by {
        var k :| k in m.Keys;
      }
      var k :| k in m;
      assert (m - {k}).Keys == m.Keys - {k};
      m[k] + MapSum(m - {k})
  }

  // ---------------------------------------------------------------------------
  // Lemmas about the state machine
  // ---------------------------------------------------------------------------

  /** Handling the same event `k` times moves the user count by `k` times the
      one-call delta. */
  lemma {:induction false} UserCountAfter(n: int, e: Event, k: nat)
    ensures StepTimes(UserCount(n), e, k) == UserCount(n + k * UserDelta(e))
  {
    if k > 0 {
      UserCountAfter(n, e, k - 1);
    }
  }

  /** Handling the same event `k` times raises the alert count by `k` exactly
      when its payload is an inventory record. */
  lemma {:induction false} AlertCountAfter(n: int, e: Event, k: nat)
    ensures StepTimes(AlertCount(n), e, k) == AlertCount(n + k * AlertDelta(e))
  {
    if k > 0 {
      AlertCountAfter(n, e, k - 1);
    }
  }

  /** Handling the same event `k` times adds `k` to that event type's counter
      and leaves every other key as it was. */
  lemma {:induction false} TypeCountsAfter(m: map<EventType, int>, e: Event, k: nat)
    ensures StepTimes(TypeCounts(m), e, k) == TypeCounts(Bumped(m, e.eventType, k))
  {
    if k > 0 {
      TypeCountsAfter(m, e, k - 1);
      var t := e.eventType;
      if k - 1 > 0 {
        assert Bumped(Bumped(m, t, k - 1), t, 1) == m[t := Get(m, t) + k];
      }
    }
  }

  /** Two `Handle` calls on one handler commute: the final state does not
      depend on which of two events is handled first. */
  lemma StepCommutes(s: HandlerState, e1: Event, e2: Event)
    ensures Step(Step(s, e1), e2) == Step(Step(s, e2), e1)
  {
    if s.TypeCounts? {
      var m, t1, t2 := s.counts, e1.eventType, e2.eventType;
      if t1 != t2 {
        assert Bumped(Bumped(m, t1, 1), t2, 1) == Bumped(Bumped(m, t2, 1), t1, 1);
      }
    }
  }

  /** Running `a` then `b` is running their concatenation. */
  lemma {:induction false} RunAppend(s: HandlerState, a: seq<Event>, b: seq<Event>)
    ensures Run(s, a + b) == Run(Run(s, a), b)
    decreases |b|
  {
    if b == [] {
      assert a + b == a;
    } else {
      var b', x := b[..|b| - 1], b[|b| - 1];
      assert a + b == (a + b') + [x];
      assert (a + b)[..|a + b| - 1] == a + b';
      RunAppend(s, a, b');
    }
  }

  /** One event handled before a run or after it gives the same state. */
  lemma {:induction false} StepThenRun(s: HandlerState, x: Event, a: seq<Event>)
    ensures Run(Step(s, x), a) == Step(Run(s, a), x)
  {
    if a != [] {
      var a', y := a[..|a| - 1], a[|a| - 1];
      StepThenRun(s, x, a');
      StepCommutes(Run(s, a'), x, y);
    }
  }

  /** Taking the same event out of two orderings of one collection leaves two
      orderings of one collection. */
  lemma RemoveAt(a: seq<Event>, i: nat, b': seq<Event>, x: Event)
    requires i < |a| && a[i] == x && multiset(a) == multiset(b' + [x])
    ensures multiset(a[..i] + a[i + 1..]) == multiset(b')
  {
    assert a == a[..i] + [x] + a[i + 1..];
    assert multiset(a) == multiset(a[..i]) + multiset{x} + multiset(a[i + 1..]);
    assert multiset(b' + [x]) == multiset(b') + multiset{x};
    var rest := multiset(a[..i]) + multiset(a[i + 1..]);
    assert multiset(a[..i] + a[i + 1..]) == rest;
    assert rest == (rest + multiset{x}) - multiset{x};
    assert multiset(b') == (multiset(b') + multiset{x}) - multiset{x};
  }

  /** The order in which a handler sees a collection of events does not change
      its final state: any two orderings of the same events agree. */
  lemma {:induction false} RunReorder(s: HandlerState, a: seq<Event>, b: seq<Event>)
    requires multiset(a) == multiset(b)
    ensures Run(s, a) == Run(s, b)
    decreases |b|
  {
    if b == [] {
      assert |a| == |multiset(a)| == 0;
    } else {
      var b', x := b[..|b| - 1], b[|b| - 1];
      assert b == b' + [x];
      assert x in multiset(a);
      var i :| 0 <= i < |a| && a[i] == x;
      var a1, a2 := a[..i], a[i + 1..];
      assert a == a1 + [x] + a2;
      RemoveAt(a, i, b', x);
      RunReorder(s, a1 + a2, b');
      RunAppend(s, a1 + [x], a2);
      RunAppend(s, a1, [x]);
      StepThenRun(Run(s, a1), x, a2);
      RunAppend(s, a1, a2);
      assert (a1 + a2 + [x])[..|a1 + a2|] == a1 + a2;
    }
  }

  /** The user count after a run is the starting count plus the creations minus
      the deletions that carried a user record. */
  lemma {:induction false} UserCountRun(n: int, es: seq<Event>)
    ensures Run(UserCount(n), es)
            == UserCount(n + CountUserEvents(es, UserCreated) - CountUserEvents(es, UserDeleted))
  {
    if es != [] {
      UserCountRun(n, es[..|es| - 1]);
    }
  }

  /** The alert count after a run is the starting count plus the number of
      inventory payloads seen. */
  lemma {:induction false} AlertCountRun(n: int, es: seq<Event>)
    ensures Run(AlertCount(n), es) == AlertCount(n + CountInventoryEvents(es))
  {
    if es != [] {
      AlertCountRun(n, es[..|es| - 1]);
    }
  }

  /** Removing any one key from the sum, whichever the sum itself picked first. */
  lemma MapSumRemove(m: map<EventType, int>, k: EventType)
    requires k in m
    ensures MapSum(m) == m[k] + MapSum(m - {k})
    decreases |m|
  {
    var k0 :| k0 in m && MapSum(m) == m[k0] + MapSum(m - {k0});
    if k0 != k {
      assert (m - {k0}).Keys == m.Keys - {k0};
      assert (m - {k}).Keys == m.Keys - {k};
      MapSumRemove(m - {k0}, k);
      MapSumRemove(m - {k}, k0);
      assert m - {k0} - {k} == m - {k} - {k0};
    }
  }

  /** `k` events of one type add exactly `k` to the total over all types. */
  lemma MapSumBumped(m: map<EventType, int>, t: EventType, k: nat)
    ensures MapSum(Bumped(m, t, k)) == MapSum(m) + k
  {
    if k > 0 {
      var b := Bumped(m, t, k);
      MapSumRemove(b, t);
      assert b - {t} == m - {t};
      if t in m {
        MapSumRemove(m, t);
      } else {
        assert m - {t} == m;
      }
    }
  }

  /** The analytics total after a run is the starting total plus the number of
      events handled, so from an empty map it is the number of calls. */
  lemma {:induction false} AnalyticsTotalRun(m: map<EventType, int>, es: seq<Event>)
    ensures Run(TypeCounts(m), es).TypeCounts?
    ensures MapSum(Run(TypeCounts(m), es).counts) == MapSum(m) + |es|
  {
    if es != [] {
      var prefix := es[..|es| - 1];
      AnalyticsTotalRun(m, prefix);
      MapSumBumped(Run(TypeCounts(m), prefix).counts, es[|es| - 1].eventType, 1);
    }
  }

  // ---------------------------------------------------------------------------
  // The urgency icon of an inventory alert
  // ---------------------------------------------------------------------------

  const Siren: string := "\U{1F6A8}"
  const Fire: string := "\U{1F525}"
  const Warning: string := "\U{26A0}\U{FE0F}"
  const Info: string := "\U{2139}\U{FE0F}"

  /** The icon shown for an alert's urgency; unknown urgencies keep the default
      warning sign, which is also the icon of "medium". */
  function UrgencyIcon(urgency: string): (icon: string)
    ensures icon in {Siren, Fire, Warning, Info}
    ensures icon == Warning <==> urgency != "high" && urgency != "critical" && urgency != "low"
    ensures icon == Siren <==> urgency == "high"
    ensures icon == Fire <==> urgency == "critical"
    ensures icon == Info <==> urgency == "low"
  {
    match urgency
    case "high" => Siren
    case "critical" => Fire
    case "medium" => Warning
    case "low" => Info
    case _ => Warning
  }

  // ---------------------------------------------------------------------------
  // The handler classes
  // ---------------------------------------------------------------------------

  /** Tracks the number of users. */
  class UserManager {
    const name: string
    var userCount: int

    function Name(): string { name }

    constructor (name: string)
      ensures Name() == name && userCount == 0
    {
      this.name := name;
      userCount := 0;
    }

    method Handle(e: Event) returns (r: Outcome)
      modifies this
      ensures r == Pass
      ensures e.eventType == UserCreated && e.payload.UserData? ==> userCount == old(userCount) + 1
      ensures e.eventType == UserDeleted && e.payload.UserData? ==> userCount == old(userCount) - 1
      ensures !(e.eventType in {UserCreated, UserDeleted} && e.payload.UserData?) ==> userCount == old(userCount)
    {
      if e.eventType == UserCreated {
        if e.payload.UserData? {
          userCount := userCount + 1;
        }
      } else if e.eventType == UserUpdated {
        // An update only reports.
      } else if e.eventType == UserDeleted {
        if e.payload.UserData? {
          userCount := userCount - 1;
        }
      }
      r := Pass;
    }
  }

  /** Reports orders; keeps no state. */
  class OrderProcessor {
    const name: string

    function Name(): string { name }

    constructor (name: string)
      ensures Name() == name
    {
      this.name := name;
    }

    method Handle(e: Event) returns (r: Outcome)
      ensures r == Pass
    {
      r := Pass;
    }
  }

  /** Reports payments; keeps no state. */
  class PaymentGateway {
    const name: string

    function Name(): string { name }

    constructor (name: string)
      ensures Name() == name
    {
      this.name := name;
    }

    method Handle(e: Event) returns (r: Outcome)
      ensures r == Pass
    {
      r := Pass;
    }
  }

  /** Counts low-stock alerts. */
  class InventoryManager {
    const name: string
    var lowStockAlerts: int

    function Name(): string { name }

    constructor (name: string)
      ensures Name() == name && lowStockAlerts == 0
    {
      this.name := name;
      lowStockAlerts := 0;
    }

    /** The icon of the alert is only reported; see `UrgencyIcon`. */
    method Handle(e: Event) returns (r: Outcome)
      modifies this
      ensures r == Pass
      ensures e.payload.InventoryData? ==> lowStockAlerts == old(lowStockAlerts) + 1
      ensures !e.payload.InventoryData? ==> lowStockAlerts == old(lowStockAlerts)
    {
      if e.payload.InventoryData? {
        lowStockAlerts := lowStockAlerts + 1;
      }
      r := Pass;
    }
  }

  /** Counts handled events per event type. */
  class AnalyticsService {
    const name: string
    var eventsProcessed: map<EventType, int>

    function Name(): string { name }

    constructor (name: string)
      ensures Name() == name && eventsProcessed == map[] && MapSum(eventsProcessed) == 0
    {
      this.name := name;
      eventsProcessed := map[];
    }

    method Handle(e: Event) returns (r: Outcome)
      modifies this
      ensures r == Pass
      ensures eventsProcessed == Bumped(old(eventsProcessed), e.eventType, 1)
      ensures e.eventType in eventsProcessed
      ensures eventsProcessed[e.eventType] == Get(old(eventsProcessed), e.eventType) + 1
      ensures forall t :: t != e.eventType ==> Get(eventsProcessed, t) == Get(old(eventsProcessed), t)
      ensures eventsProcessed.Keys == old(eventsProcessed).Keys + {e.eventType}
      ensures MapSum(eventsProcessed) == MapSum(old(eventsProcessed)) + 1
    {
      eventsProcessed := eventsProcessed[e.eventType := Get(eventsProcessed, e.eventType) + 1];
      MapSumBumped(old(eventsProcessed), e.eventType, 1);
      // The total is only reported.
      var total := ReportedTotal();
      r := Pass;
    }

    /** The total over all event types, accumulated over the map's entries in
        whatever order they are visited. */
    method ReportedTotal() returns (total: int)
      ensures total == MapSum(eventsProcessed)
    {
      total := 0;
      var rest := eventsProcessed;
      while rest != map[]
        invariant total + MapSum(rest) == MapSum(eventsProcessed)
        decreases |rest|
      {
        var t :| t in rest;
        MapSumRemove(rest, t);
        total := total + rest[t];
        assert (rest - {t}).Keys == rest.Keys - {t};
        rest := rest - {t};
      }
    }
  }

  /** Reports notifications; keeps no state. */
  class NotificationService {
    const name: string

    function Name(): string { name }

    constructor (name: string)
      ensures Name() == name
    {
      this.name := name;
    }

    method Handle(e: Event) returns (r: Outcome)
      ensures r == Pass
    {
      r := Pass;
    }
  }

  // ---------------------------------------------------------------------------
  // The handler capability
  // ---------------------------------------------------------------------------

  /** A registered handler: one variant per concrete handler, holding the object. */
  datatype HandlerRef =
    | UserMgr(user: UserManager)
    | OrderProc(order: OrderProcessor)
    | PaymentGw(payment: PaymentGateway)
    | InventoryMgr(inventory: InventoryManager)
    | AnalyticsSvc(analytics: AnalyticsService)
    | Notifier(notification: NotificationService)
  {
    /** The object behind the reference. */
    function Obj(): object
    {
      match this
      case UserMgr(h) => h
      case OrderProc(h) => h
      case PaymentGw(h) => h
      case InventoryMgr(h) => h
      case AnalyticsSvc(h) => h
      case Notifier(h) => h
    }

    function Name(): string
    {
      match this
      case UserMgr(h) => h.Name()
      case OrderProc(h) => h.Name()
      case PaymentGw(h) => h.Name()
      case InventoryMgr(h) => h.Name()
      case AnalyticsSvc(h) => h.Name()
      case Notifier(h) => h.Name()
    }

    /** The part of the handler's fields that `Handle` changes. */
    ghost function State(): HandlerState
      reads Obj()
    {
      match this
      case UserMgr(h) => UserCount(h.userCount)
      case InventoryMgr(h) => AlertCount(h.lowStockAlerts)
      case AnalyticsSvc(h) => TypeCounts(h.eventsProcessed)
      case _ => NoState
    }
  }

  /** Distinct references name distinct objects. */
  lemma ObjInjective(h1: HandlerRef, h2: HandlerRef)
    ensures h1 != h2 ==> h1.Obj() != h2.Obj()
  {
  }

  /** `Handle` through the capability: calls the concrete handler's `Handle`. */
  method Invoke(h: HandlerRef, e: Event) returns (r: Outcome)
    modifies h.Obj()
    ensures r == Pass
    ensures h.State() == Step(old(h.State()), e)
  {
    match h
    case UserMgr(u) => r := u.Handle(e);
    case OrderProc(o) => r := o.Handle(e);
    case PaymentGw(p) => r := p.Handle(e);
    case InventoryMgr(m) => r := m.Handle(e);
    case AnalyticsSvc(a) => r := a.Handle(e);
    case Notifier(n) => r := n.Handle(e);
  }
}

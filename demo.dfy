/** The demo program's wiring: the registry its registration calls build, and
    what the loop does with a few events under that registry. */
module Demo {
  import opened Events
  import opened Handlers
  import opened Dispatcher

  /** Registers `h` for every type of `ts`, in order. */
  function RegisterEach(reg: Registry, ts: seq<EventType>, h: HandlerRef): Registry
  {
    if ts == [] then reg else Register(RegisterEach(reg, ts[..|ts| - 1], h), ts[|ts| - 1], h)
  }

  /** Registering `h` once for each of a list of distinct types appends `h`
      to exactly the listed types. */
  lemma {:induction false} RegisterEachLookup(reg: Registry, ts: seq<EventType>, h: HandlerRef, t: EventType)
    requires forall i, j :: 0 <= i < j < |ts| ==> ts[i] != ts[j]
    ensures Lookup(RegisterEach(reg, ts, h), t) == Lookup(reg, t) + (if t in ts then [h] else [])
  {
    if ts != [] {
      var ts', x := ts[..|ts| - 1], ts[|ts| - 1];
      assert ts == ts' + [x];
      RegisterEachLookup(reg, ts', h, t);
      RegisterAppends(RegisterEach(reg, ts', h), x, h);
      if x == t {
        assert t !in ts' by {
          forall i | 0 <= i < |ts'| ensures ts'[i] != t {
            assert ts[i] == ts'[i] && ts[|ts| - 1] == t;
          }
        }
      }
    }
  }

  /** The registrations of the domain handlers, in the program's order: each
      handler for its own types, then the notifier for four types. */
  function DomainRegistry(um: UserManager, op: OrderProcessor, pg: PaymentGateway, im: InventoryManager,
                          ns: NotificationService): Registry
  {
    var users := Register(Register(Register(map[], UserCreated, UserMgr(um)), UserUpdated, UserMgr(um)), UserDeleted, UserMgr(um));
    var orders := Register(Register(Register(users, OrderPlaced, OrderProc(op)), OrderCancelled, OrderProc(op)), OrderShipped, OrderProc(op));
    var payments := Register(Register(Register(orders, PaymentSuccess, PaymentGw(pg)), PaymentFailed, PaymentGw(pg)), PaymentRefunded, PaymentGw(pg));
    var inventory := Register(payments, InventoryLow, InventoryMgr(im));
    Register(Register(Register(Register(inventory, ReviewAdded, Notifier(ns)), PromoCodeUsed, Notifier(ns)), OrderShipped, Notifier(ns)), PaymentSuccess, Notifier(ns))
  }

  /** Every registration of the program, starting from an empty registry:
      analytics comes last, once for every named type. */
  function MainRegistry(um: UserManager, op: OrderProcessor, pg: PaymentGateway, im: InventoryManager,
                        an: AnalyticsService, ns: NotificationService): Registry
  {
    RegisterEach(DomainRegistry(um, op, pg, im, ns), AllEventTypes(), AnalyticsSvc(an))
  }

  /** A shipped order goes to the order processor, the notifier and analytics, in that order. */
  lemma ShippedOrderHandlers(um: UserManager, op: OrderProcessor, pg: PaymentGateway, im: InventoryManager,
                             an: AnalyticsService, ns: NotificationService)
    ensures Lookup(MainRegistry(um, op, pg, im, an, ns), OrderShipped) == [OrderProc(op), Notifier(ns), AnalyticsSvc(an)]
  {
    var domain := DomainRegistry(um, op, pg, im, ns);
    assert Lookup(domain, OrderShipped) == [OrderProc(op), Notifier(ns)];
    RegisterEachLookup(domain, AllEventTypes(), AnalyticsSvc(an), OrderShipped);
  }

  /** A created user goes to the user manager and to analytics. */
  lemma UserCreatedHandlers(um: UserManager, op: OrderProcessor, pg: PaymentGateway, im: InventoryManager,
                            an: AnalyticsService, ns: NotificationService)
    ensures Lookup(MainRegistry(um, op, pg, im, an, ns), UserCreated) == [UserMgr(um), AnalyticsSvc(an)]
  {
    var domain := DomainRegistry(um, op, pg, im, ns);
    assert Lookup(domain, UserCreated) == [UserMgr(um)];
    RegisterEachLookup(domain, AllEventTypes(), AnalyticsSvc(an), UserCreated);
  }

  /** An updated user goes to the user manager and to analytics. */
  lemma UserUpdatedHandlers(um: UserManager, op: OrderProcessor, pg: PaymentGateway, im: InventoryManager,
                            an: AnalyticsService, ns: NotificationService)
    ensures Lookup(MainRegistry(um, op, pg, im, an, ns), UserUpdated) == [UserMgr(um), AnalyticsSvc(an)]
  {
    var domain := DomainRegistry(um, op, pg, im, ns);
    assert Lookup(domain, UserUpdated) == [UserMgr(um)];
    RegisterEachLookup(domain, AllEventTypes(), AnalyticsSvc(an), UserUpdated);
  }

  /** A type outside the named ones has no handler at all. */
  lemma UnnamedTypeHandlers(um: UserManager, op: OrderProcessor, pg: PaymentGateway, im: InventoryManager,
                            an: AnalyticsService, ns: NotificationService, t: EventType)
    requires t !in AllEventTypes()
    ensures Lookup(MainRegistry(um, op, pg, im, an, ns), t) == []
  {
    var domain := DomainRegistry(um, op, pg, im, ns);
    assert Lookup(domain, t) == [];
    RegisterEachLookup(domain, AllEventTypes(), AnalyticsSvc(an), t);
  }

  /** Processing one shipped order makes three calls, each with that event,
      so the processed counter moves by three. */
  lemma ShippedOrderCounts(um: UserManager, op: OrderProcessor, pg: PaymentGateway, im: InventoryManager,
                           an: AnalyticsService, ns: NotificationService, e: Event)
    requires e.eventType == OrderShipped
    ensures TotalInvocations(MainRegistry(um, op, pg, im, an, ns), [e]) == 3
    ensures CallLog(MainRegistry(um, op, pg, im, an, ns), [e])
         == [Invocation(OrderProc(op), e), Invocation(Notifier(ns), e), Invocation(AnalyticsSvc(an), e)]
  {
    ShippedOrderHandlers(um, op, pg, im, an, ns);
    LogExtend(MainRegistry(um, op, pg, im, an, ns), [], e);
  }

  /** An event of an unnamed type is taken and dropped: no call, nothing counted. */
  lemma UnnamedTypeCounts(um: UserManager, op: OrderProcessor, pg: PaymentGateway, im: InventoryManager,
                          an: AnalyticsService, ns: NotificationService, e: Event)
    requires e.eventType !in AllEventTypes()
    ensures TotalInvocations(MainRegistry(um, op, pg, im, an, ns), [e]) == 0
    ensures CallLog(MainRegistry(um, op, pg, im, an, ns), [e]) == []
  {
    UnnamedTypeHandlers(um, op, pg, im, an, ns, e.eventType);
    LogExtend(MainRegistry(um, op, pg, im, an, ns), [], e);
  }

  /** Under any registry that sends created and updated users to the user
      manager and then analytics: a user created and then updated makes four
      calls, moves the user count from zero to one, and leaves analytics with
      one event of each type, two in all. */
  lemma UserLifecycleUnder(reg: Registry, um: UserManager, an: AnalyticsService, created: Event, updated: Event)
    requires Lookup(reg, UserCreated) == [UserMgr(um), AnalyticsSvc(an)]
    requires Lookup(reg, UserUpdated) == [UserMgr(um), AnalyticsSvc(an)]
    requires created.eventType == UserCreated && created.payload.UserData?
    requires updated.eventType == UserUpdated
    ensures TotalInvocations(reg, [created, updated]) == 4
    ensures StateAfter(reg, UserMgr(um), UserCount(0), [created, updated]) == UserCount(1)
    ensures StateAfter(reg, AnalyticsSvc(an), TypeCounts(map[]), [created, updated])
         == TypeCounts(map[UserCreated := 1, UserUpdated := 1])
    ensures MapSum(map[UserCreated := 1, UserUpdated := 1]) == 2
  {
    LogExtend(reg, [], created);
    LogExtend(reg, [created], updated);
    StateAfterExtend(reg, UserMgr(um), UserCount(0), [], created);
    StateAfterExtend(reg, UserMgr(um), UserCount(0), [created], updated);
    StateAfterExtend(reg, AnalyticsSvc(an), TypeCounts(map[]), [], created);
    StateAfterExtend(reg, AnalyticsSvc(an), TypeCounts(map[]), [created], updated);
    assert multiset([UserMgr(um), AnalyticsSvc(an)])[UserMgr(um)] == 1;
    assert multiset([UserMgr(um), AnalyticsSvc(an)])[AnalyticsSvc(an)] == 1;
    MapSumBumped(map[], UserCreated, 1);
    MapSumBumped(map[UserCreated := 1], UserUpdated, 1);
    assert Bumped(map[UserCreated := 1], UserUpdated, 1) == map[UserCreated := 1, UserUpdated := 1];
  }

  /** The program's own wiring is such a registry. */
  lemma UserLifecycle(um: UserManager, op: OrderProcessor, pg: PaymentGateway, im: InventoryManager,
                      an: AnalyticsService, ns: NotificationService, created: Event, updated: Event)
    requires created.eventType == UserCreated && created.payload.UserData?
    requires updated.eventType == UserUpdated
    ensures TotalInvocations(MainRegistry(um, op, pg, im, an, ns), [created, updated]) == 4
    ensures StateAfter(MainRegistry(um, op, pg, im, an, ns), UserMgr(um), UserCount(0), [created, updated]) == UserCount(1)
    ensures StateAfter(MainRegistry(um, op, pg, im, an, ns), AnalyticsSvc(an), TypeCounts(map[]), [created, updated])
         == TypeCounts(map[UserCreated := 1, UserUpdated := 1])
  {
    UserCreatedHandlers(um, op, pg, im, an, ns);
    UserUpdatedHandlers(um, op, pg, im, an, ns);
    UserLifecycleUnder(MainRegistry(um, op, pg, im, an, ns), um, an, created, updated);
  }
}

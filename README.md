# event-driven-go: a Dafny model of the event dispatcher

This project models the core of `event-driven-go`, an in-process publish/subscribe event router.

- **Registry.** The dispatcher keeps a registry from event types to handler sequences. Registration appends and does not check for duplicates.
- **Queue.** A bounded FIFO queue, the buffered channel, is fed by one asynchronous hand-off per `Dispatch`.
- **Loop.** A single consumer loop takes one event at a time. It runs every handler registered for the event's type and waits for all of them before it takes the next event.
- **Counters.** Two counters record what happened: `eventsDispatched` and `eventsProcessed`.
- **Handlers.** Six concrete handlers:
  - `UserManager` and `InventoryManager` keep counters.
  - `AnalyticsService` keeps a per-type map of counters.
  - The other three only report.

Layout:

- `events.dfy` (module `Events`) holds the event-type constants, the `Event` envelope, the payload variants and the `Handle` outcome.
- `handlers.dfy` (module `Handlers`) holds the six handler classes with their fields and `Handle` methods, and the `HandlerRef` datatype that stands for the `EventHandler` interface.
  - Each `Handle` is specified against a value-level state machine (`HandlerState`, `Step`, `StepTimes`, `Run`), and lemmas about that machine state the counting properties.
- `dispatcher.dfy` (module `Dispatcher`) holds the `EventDispatcher` class.
  - The goroutines become explicit steps that the environment interleaves:
    - `Dispatch` is the caller's side.
    - `Deliver` is a hand-off goroutine pushing into a free buffer slot.
    - `HandOff` is a hand-off goroutine passing its event straight to a waiting loop when the buffer is empty.
    - `ProcessNext` and `Drain` are the loop.
  - The fan-out over the handlers of one event is a loop over the handler sequence, and `wg.Wait()` is the end of that loop.
  - Ghost fields keep the events processed so far and the log of every `Handle` call. The class invariant ties the processed counter to the registry: `eventsProcessed` is the sum, over the processed events, of the number of handlers registered for each event's type.
- `demo.dfy` (module `Demo`) holds the registry built by the demo program's registration calls (`cmd/main.go:22-50`). It also states what processing a few events does under that registry.

Two points about the code shape the model:

- `Stop` closes the queue and reports the counters without waiting for the loop to drain (`internal/dispatcher/dispatcher.go:85-93`). So `Drain` is a separate loop step that the environment may run before or after `Stop`.
- The registry is `map[type][]handler` with an existence check (`internal/dispatcher/dispatcher.go:57`). An entry exists only after a registration, so an existing entry is never empty (an invariant of the class). Looking up a missing type and iterating over zero handlers are therefore the same thing.

## Model

| member | source | states |
|---|---|---|
| Events.AllEventTypes | internal/events/events.go:9-23 | the thirteen named event types: exactly thirteen, pairwise distinct (so each names its own registry key), with the promo-code type keeping its literal "PROMO_CODE_USERD" |
| Handlers.UserManager.constructor | internal/handlers/handlers.go:18-27 | the handler's `Name()` is the name it was built with and the user count starts at 0 |
| Handlers.UserManager.Handle | internal/handlers/handlers.go:29-64 | a creation with a user payload adds 1 and a deletion with a user payload subtracts 1, with no lower bound; updates, other types and other payloads leave the count as it was; the outcome is always success |
| Handlers.OrderProcessor.constructor | internal/handlers/handlers.go:70-76 | `Name()` is the constructor's name |
| Handlers.OrderProcessor.Handle | internal/handlers/handlers.go:78-100 | always succeeds and changes no state |
| Handlers.PaymentGateway.constructor | internal/handlers/handlers.go:106-112 | `Name()` is the constructor's name |
| Handlers.PaymentGateway.Handle | internal/handlers/handlers.go:114-135 | always succeeds and changes no state |
| Handlers.InventoryManager.constructor | internal/handlers/handlers.go:142-151 | `Name()` is the constructor's name and the alert count starts at 0 |
| Handlers.InventoryManager.Handle | internal/handlers/handlers.go:153-184 | any event with an inventory payload raises the alert count by 1, whatever its type; any other payload leaves it as it was; always succeeds |
| Handlers.UrgencyIcon | internal/handlers/handlers.go:159-169 | "high" gives the siren, "critical" the fire and "low" the information sign; every other urgency, "medium" included, gives the default warning sign; each icon in both directions |
| Handlers.AnalyticsService.constructor | internal/handlers/handlers.go:192-201 | `Name()` is the constructor's name and the per-type map starts empty, with total 0 |
| Handlers.AnalyticsService.Handle | internal/handlers/handlers.go:203-219 | the counter of the event's type goes up by 1, and a missing key counts as 0; every other key keeps its value; the key set gains only the event's type; the total goes up by exactly 1; always succeeds |
| Handlers.AnalyticsService.ReportedTotal | internal/handlers/handlers.go:208-213 | the loop that accumulates over the map's entries, in whatever order it visits them, returns the sum of all the values |
| Handlers.NotificationService.constructor | internal/handlers/handlers.go:225-231 | `Name()` is the constructor's name |
| Handlers.NotificationService.Handle | internal/handlers/handlers.go:233-253 | always succeeds and changes no state |
| Handlers.Invoke | internal/events/events.go:33-36 | calling `Handle` through the interface returns success and moves the handler's state by exactly one step of its state machine |
| Handlers.UserCountAfter | internal/handlers/handlers.go:32-61 | handling one event k times moves the user count by k times that event's delta |
| Handlers.AlertCountAfter | internal/handlers/handlers.go:156-157 | handling one event k times raises the alert count by k if its payload is an inventory record and by 0 otherwise |
| Handlers.TypeCountsAfter | internal/handlers/handlers.go:204-206 | handling one event k times adds k to its type's counter and to no other |
| Handlers.StepCommutes | internal/handlers/handlers.go:29-64 | two events handled by one handler give the same state in either order |
| Handlers.RunReorder | internal/handlers/handlers.go:29-219 | a handler that sees the same events in any other order ends in the same state |
| Handlers.UserCountRun | internal/handlers/handlers.go:32-61 | after a run of events, the user count is the start plus the creations minus the deletions that carried a user record |
| Handlers.AlertCountRun | internal/handlers/handlers.go:156-157 | after a run of events, the alert count is the start plus the number of inventory payloads |
| Handlers.MapSumRemove | internal/handlers/handlers.go:210-212 | the sum of the map can be split off at any key, so it does not depend on iteration order |
| Handlers.MapSumBumped | internal/handlers/handlers.go:205-212 | k more events of one type raise the total by exactly k |
| Handlers.AnalyticsTotalRun | internal/handlers/handlers.go:203-213 | after a run of events, the analytics total is the starting total plus the number of events, so from an empty map it counts every call |
| Dispatcher.RegisterAppends | internal/dispatcher/dispatcher.go:27-29 | registration puts the handler at the end of its type's sequence; every other type keeps its sequence; the type becomes a key |
| Dispatcher.RegisterTwice | internal/dispatcher/dispatcher.go:27-29 | registering the same handler twice for a type lists it twice, so it will be called twice per event |
| Dispatcher.CallsCount | internal/dispatcher/dispatcher.go:61-75 | counted without regard to order, one event's calls pair each registered handler with that exact event once per registration, and contain no other call |
| Dispatcher.CallLogLength | internal/dispatcher/dispatcher.go:71-73 | the number of calls made for a sequence of events equals the sum of the handler counts of their types |
| Dispatcher.CallLogAppend | internal/dispatcher/dispatcher.go:47-49 | the calls made for two batches of events in turn are the calls for the first followed by the calls for the second, and their counts add up |
| Dispatcher.LogExtend | internal/dispatcher/dispatcher.go:57-77 | one more processed event appends exactly that event's calls and adds its type's handler count |
| Dispatcher.UnregisteredTypeIsSilent | internal/dispatcher/dispatcher.go:78-80 | an event whose type has no entry makes no call and adds nothing to the count |
| Dispatcher.StateAfterExtend | internal/dispatcher/dispatcher.go:57-77 | one more processed event applies each handler once per time it is registered for the event's type |
| Dispatcher.StateAfterAppend | internal/dispatcher/dispatcher.go:46-51 | processing two batches in turn moves a handler as the first batch and then, from there, the second |
| Dispatcher.StepTimesCommute | internal/dispatcher/dispatcher.go:61-75 | the calls of one event and the calls of another, made in blocks, commute |
| Dispatcher.StateAfterFirst | internal/dispatcher/dispatcher.go:46-51 | calls with one event made before a whole batch have the effect they would have after it |
| Dispatcher.StateAfterReorder | internal/dispatcher/dispatcher.go:38-40 | the loop taking the same events in any other order leaves every handler in the same state, so the order in which hand-offs reach the queue does not affect any handler's counters |
| Dispatcher.TotalsReorder | internal/dispatcher/dispatcher.go:38-40 | the loop taking the same events in any other order gives the same processed count |
| Dispatcher.CallLogReorder | internal/dispatcher/dispatcher.go:38-40 | the loop taking the same events in any other order makes the same calls, counted without regard to order |
| Dispatcher.StateAfterUntouched | internal/dispatcher/dispatcher.go:57-80 | a handler registered for none of the processed events' types keeps its state |
| Dispatcher.InvokeAt | internal/dispatcher/dispatcher.go:64-69 | one handler goroutine's call through the interface: that handler moves one step and every other handler keeps its state; the outcome may be a failure |
| Dispatcher.EventDispatcher.ProcessedCountsCalls | internal/dispatcher/dispatcher.go:71-73 | in every reachable state the processed counter equals the number of `Handle` calls made so far |
| Dispatcher.EventDispatcher.constructor | internal/dispatcher/dispatcher.go:20-25 | a new dispatcher has the given capacity, an empty registry, an empty queue, no pending hand-offs and both counters at 0 |
| Dispatcher.EventDispatcher.RegisterHandler | internal/dispatcher/dispatcher.go:27-29 | the registry becomes the old one with the handler appended for the type; the class invariant is kept |
| Dispatcher.EventDispatcher.Dispatch | internal/dispatcher/dispatcher.go:31-41 | the dispatched counter goes up by exactly 1 and the event joins the pending hand-offs; the processed counter and the queue are untouched |
| Dispatcher.EventDispatcher.Deliver | internal/dispatcher/dispatcher.go:38-40 | a pending hand-off moves its event to the back of the queue while the buffer has room |
| Dispatcher.EventDispatcher.Start | internal/dispatcher/dispatcher.go:43-52 | starts the single loop, once |
| Dispatcher.EventDispatcher.InvokeAndCount | internal/dispatcher/dispatcher.go:64-74 | one handler goroutine: the call is logged and counted whatever its outcome, since a failure is only reported, and it moves only its own handler's state |
| Dispatcher.EventDispatcher.FanOut | internal/dispatcher/dispatcher.go:57-77 | for an event with N registered handlers: exactly N calls, one per registered handler with that event; the processed counter rises by N; each handler is applied once per registration and no other handler changes |
| Dispatcher.EventDispatcher.ProcessEvent | internal/dispatcher/dispatcher.go:54-83 | the event is recorded as processed after all its handlers finish; the counter and the call log still equal their functions of the processed events |
| Dispatcher.EventDispatcher.ProcessNext | internal/dispatcher/dispatcher.go:47-49 | the loop takes exactly the front of the queue and fans it out fully before returning; the class invariant is kept |
| Dispatcher.EventDispatcher.HandOff | internal/dispatcher/dispatcher.go:38-49 | with an empty buffer, a pending hand-off gives its event directly to the loop, which fans it out |
| Dispatcher.EventDispatcher.DrainStep | internal/dispatcher/dispatcher.go:47-49 | one turn of the loop takes the front of the queue, appends it to the processed events, and moves every handler from the state the events so far give to the state they give with this event added |
| Dispatcher.EventDispatcher.Drain | internal/dispatcher/dispatcher.go:46-51 | the loop processes every queued event in FIFO order until the queue is empty; the counter grows by the events' total handler count, the log by their calls, and each handler ends in the state `StateAfter` gives |
| Dispatcher.EventDispatcher.Stop | internal/dispatcher/dispatcher.go:85-93 | closes the queue and reports both counters, leaving them unchanged; it does not wait for the queue to drain |
| Demo.RegisterEachLookup | cmd/main.go:48-50 | registering one handler for each of a list of distinct types appends it to exactly those types |
| Demo.ShippedOrderHandlers | cmd/main.go:22-50 | under the program's wiring, a shipped order goes to the order processor, the notifier and analytics, in that order |
| Demo.UserCreatedHandlers | cmd/main.go:22-50 | under the program's wiring, a created user goes to the user manager and then analytics |
| Demo.UserUpdatedHandlers | cmd/main.go:22-50 | under the program's wiring, an updated user goes to the user manager and then analytics |
| Demo.UnnamedTypeHandlers | cmd/main.go:22-50 | a type outside the thirteen named ones has no handler |
| Demo.ShippedOrderCounts | cmd/main.go:22-50 | processing one shipped order makes three calls with that event, so the processed counter moves by 3 |
| Demo.UnnamedTypeCounts | cmd/main.go:22-50 | an event of an unnamed type makes no call and counts nothing |
| Demo.UserLifecycleUnder | internal/handlers/handlers.go:32-49 | a created then updated user makes four calls; the user count goes from 0 to 1; analytics ends with one event of each type, two in all |
| Demo.UserLifecycle | cmd/main.go:22-50 | the program's wiring is such a registry, so the same counts hold there |

## Left out

- Printing, and the `time.Sleep` and `rand.Intn` delays, are observability and timing only. They are left out.
- Goroutines, `sync.WaitGroup`, the mutexes and channel blocking are left out. The model uses explicit sequential steps instead (`Dispatch`, `Deliver`, `HandOff`, `ProcessNext`, `Drain`), and the environment chooses their interleaving.
- Dispatcher.EventDispatcher.FanOut: the handlers of one event run one after another in registration order. The source runs them concurrently in an unspecified order. Each handler's final state and the processed counter still depend only on how many times each handler is registered. `FanOut`'s own per-handler ensures states this, and `InvokeAt` with `ObjInjective` shows that one handler's call leaves every other handler alone. `CallsCount` gives the calls without regard to order.
- Within one event, the ghost `invocations` log lists the calls in registration order. That order is the model's own, since the source runs the handlers concurrently (`internal/dispatcher/dispatcher.go:61-75`). Across events, the log follows the order in which the loop takes events, as in the source (`internal/dispatcher/dispatcher.go:47-48`, 77).
- Dispatcher.InvokeAt: promises nothing about the outcome of a call. The loop is written against the `EventHandler` interface, whose `Handle` may return an error, so the count is proved for both outcomes. With the six shipped handlers (`Handlers.Invoke`), the error branch is never taken.
- Dispatcher.EventDispatcher.Dispatch: dispatching after `Stop` is a precondition (not closed). In the source it panics with a send on a closed channel.
- Dispatcher.EventDispatcher.Stop: a pending hand-off at the time of closing panics in the source. The model makes "no pending hand-offs" a precondition.
- Dispatcher.EventDispatcher.Stop: a second `Stop` is a precondition (not closed). In the source it closes the channel twice and panics.
- Dispatcher.EventDispatcher.constructor: the buffer size is a `nat`. In the source a negative size makes `make(chan events.Event, bufferSize)` panic (`internal/dispatcher/dispatcher.go:23`).
- Dispatcher.EventDispatcher.Start: a second `Start` would create a second consumer loop. The model makes it a precondition.
- Dispatcher.EventDispatcher.RegisterHandler: registration after `Start` is a precondition. The source does not forbid it, but it would race with the loop reading the map.
- Counters are unbounded integers. Go's `int` wrap-around after 2^63 increments is not modelled.
- The unsynchronised reads of `userCount` and the unsynchronised `lowStockAlerts++` are data races. They are not modelled.
- Payload records (`internal/events/payloads.go`, with `float64` amounts) become a tag-only datatype. Only an inventory record keeps its urgency string, for the icon mapping.
- The event timestamp is an opaque integer that nothing inspects.
- The demo generator (`internal/generator/generator.go`) is not part of this model. Neither are the rest of `cmd/main.go` (the sleeps and the calls to the generator) and the dispatcher's `Start`/`Stop` calls there. Only the registration list is modelled, as the `Demo` registry.
- HandlerRef.Name has no contract of its own. It returns the concrete handler's `Name()`, which each constructor ties to its argument.

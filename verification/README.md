# Eventing, modelled in Dafny

A model of the in-process event library Eventing (C#). It covers:

- **Message bus.** It keeps an ordered registry of message subscriptions. Sending a message snapshots the subscriptions that accept the message's runtime type, posts the message to each of them, and then drops the matching subscriptions whose unsubscribe policy is Auto.
- **Message subscription.** It holds the accepted types, an owner, a handler and the synchronization context that the handler runs on.
- **Single-thread synchronization context.** It is a FIFO queue of callbacks. A test drains it with `RunAllOperations`; the worker loop drains it with `RunOnCurrentThread`. The worker loop either hands a callback's exception to an `UnhandledException` observer or rethrows it.
- **Event manager.** `RaiseEvent`; `WaitFor`, a one-shot wait whose optional filter and optional timer race to resolve the same task; `StartReceiving` / `StopReceiving`.

Files, one module each:

- `wrappers.dfy`: Option / Result / Outcome.
- `model.dfy`: the unsubscribe policy and the exceptions the library throws, as values.
- `types.dfy`: runtime types with their direct supertypes, `IsAssignableFrom`, and `as IEvent`.
- `seqs.dfy`: `List.Remove` and `RemoveAll` / `Where` over sequences.
- `tasks.dfy`: the completion cell behind a `WaitFor` task.
- `callbacks.dfy`: what a posted callback does, as data.
- `sync_context.dfy`, `subscriptions.dfy`, `bus.dfy`, `events.dfy`: the four classes of the library.
- `scenarios.dfy`: the library's unit tests, replayed on the model.

How the model represents the runtime:

- **Objects the library mutates** are Dafny classes that keep their fields. These are the bus registry, the context queue and its flags, a subscription's policy and a task's state.
- **Delegates** are data. A subscription's handler is the user's handler, the `WaitFor` closure, or the `StartReceiving` closure.
- **User code** is opaque. A handler is seen as a token, the callbacks it posts back and whether it throws. A filter is seen as its verdict on each input and the inputs on which it throws. A delegate passed as null is absent, and calling it throws NullReferenceException.
- **Draining a queue** is specified by the function `Drain`. The loop methods are proved equal to it, and its properties are lemmas.
- **`SynchronizationContext.Current`** is an explicit `ambient` parameter.
- **`Guid.NewGuid()`** is an `id` parameter.
- **The `WaitFor` timer** is an object whose `Elapse` method is the step in which the time-out fires.

## Model

| member | source | states |
|---|---|---|
| `Types.IsAssignableFrom` | Eventing.Library/Impl/MessageSubscription.cs:95 | a type is assignable from itself and from what derives from it, and only from types with a strictly longer chain of supertypes above them |
| `Types.AssignableAntisymmetric` | Eventing.Library/Impl/MessageSubscription.cs:95 | two types assignable from each other are the same type |
| `Types.AssignableTransitive` | Eventing.Library/Impl/MessageSubscription.cs:95 | assignability composes along a derivation chain |
| `Tasks.CompletionCell.constructor` | Eventing.Library/Impl/EventManager.cs:44 | a new task completion source is pending |
| `Tasks.CompletionCell.TrySetResult` | Eventing.Library/Impl/EventManager.cs:55 | the attempt succeeds exactly when the task is still pending, and then fixes its result; otherwise nothing changes |
| `Tasks.FirstAttemptWins` | Eventing.Library/Impl/EventManager.cs:55-67 | after any sequence of attempts, a task is pending if there were none, and otherwise is resolved to the first attempted value |
| `Tasks.DoneIsFinal` | Eventing.Library/Impl/EventManager.cs:67 | once a task is resolved, no later attempt changes it |
| `Callbacks.EffectOf` | Eventing.Library/Impl/MessageSubscription.cs:104 | running a delivery: only the `WaitFor` closure makes a TrySetResult, on its own task with `message as IEvent`, and it never runs user code; user code run is the handler's own; only a delivery can fault, and a NullReferenceException comes only from a null user handler |
| `Callbacks.ReceiverInvokesIffAccepted` | Eventing.Library/Impl/EventManager.cs:139-142 | the receiving closure calls the user handler if and only if there is no filter or the filter accepts without throwing; with a null handler, exactly those deliveries throw NullReferenceException |
| `SyncContext.Drain` | Eventing.Library/Impl/SingleThreadSynchronizationContext.cs:59-60 | a drain runs nothing exactly when the queue is empty, starts with the head of the queue, and when it faults, the fault is the exception of the last callback it ran |
| `SyncContext.SingleThreadSynchronizationContext.constructor` | Eventing.Library/Impl/SingleThreadSynchronizationContext.cs:13-23 | a new context has an empty queue that is open for adding and an empty list of UnhandledException handlers |
| `SyncContext.SingleThreadSynchronizationContext.Post` | Eventing.Library/Impl/SingleThreadSynchronizationContext.cs:37-47 | a null callback throws ArgumentNullException("callback"); otherwise the callback is appended to the queue, or silently dropped once adding is completed; the flags are unchanged |
| `SyncContext.SingleThreadSynchronizationContext.Send` | Eventing.Library/Impl/SingleThreadSynchronizationContext.cs:70-72 | always throws NotSupportedException |
| `SyncContext.SingleThreadSynchronizationContext.Complete` | Eventing.Library/Impl/SingleThreadSynchronizationContext.cs:78-82 | adding is completed, and the queued callbacks stay queued |
| `SyncContext.SingleThreadSynchronizationContext.AddUnhandledExceptionObserver` | Eventing.Library/Impl/SingleThreadSynchronizationContext.cs:84 | `UnhandledException += handler` appends the handler to the invocation list; the queue and the adding flag are unchanged |
| `SyncContext.SingleThreadSynchronizationContext.RemoveUnhandledExceptionObserver` | Eventing.Library/Impl/SingleThreadSynchronizationContext.cs:84 | `UnhandledException -= handler` removes the handler's last occurrence from the invocation list, and nothing if it is not attached; the queue and the adding flag are unchanged |
| `SyncContext.SingleThreadSynchronizationContext.Execute` | Eventing.Library/Impl/SingleThreadSynchronizationContext.cs:60 | running one callback has exactly its effect: what the callback posts is queued when adding is open, and the only task it touches gets one more TrySetResult |
| `SyncContext.SingleThreadSynchronizationContext.DrainQueue` | Eventing.Library/Impl/SingleThreadSynchronizationContext.cs:59-60 | the take-and-run loop runs what `Drain` says, leaves what `Drain` leaves, and faults as `Drain` faults; every task ends in the state its attempts, in run order, give |
| `SyncContext.SingleThreadSynchronizationContext.RunAllOperations` | Eventing.Library/Impl/SingleThreadSynchronizationContext.cs:53-63 | an empty queue returns false and runs nothing; otherwise the whole queue is drained, including what the callbacks post meanwhile, and the call returns true, unless a callback throws, whose exception escapes with the rest still queued |
| `SyncContext.SingleThreadSynchronizationContext.RunOnCurrentThread` | Eventing.Library/Impl/SingleThreadSynchronizationContext.cs:96-106 | the worker loop drains the queue. A callback's exception goes to the observers if any are attached and is otherwise rethrown, which ends the loop. With the queue empty, the thread ends if adding is completed and waits otherwise |
| `SyncContext.DrainIsFifo` | Eventing.Library/Impl/SingleThreadSynchronizationContext.cs:59-60 | a drain that does not fault runs the queued callbacks first, in queue order, and leaves the queue empty |
| `SyncContext.ClosedDrainRunsPrefix` | Eventing.Library/Impl/SingleThreadSynchronizationContext.cs:41-45 | once adding is completed, a drain runs a prefix of the queue, and what it ran followed by what it left is the old queue |
| `SyncContext.DrainObserved` | Eventing.Library/Impl/SingleThreadSynchronizationContext.cs:86-104 | with an UnhandledException observer the worker loop never stops on an exception |
| `SyncContext.DrainFaults` | Eventing.Library/Impl/SingleThreadSynchronizationContext.cs:99-105 | without an observer, a drain faults if and only if a callback it ran throws; that callback is the last one it ran, and no earlier one threw |
| `Subscriptions.Accepts` | Eventing.Library/Impl/MessageSubscription.cs:94-96 | a list of types accepts `t` exactly when some entry is assignable from `t` |
| `Subscriptions.AcceptsOwnTypes` | Eventing.Library/Impl/MessageSubscription.cs:95 | a subscription accepts each of its declared types |
| `Subscriptions.AcceptsDerived` | Eventing.Library/Impl/MessageSubscription.cs:95 | accepting a type means accepting every type derived from it |
| `Subscriptions.AcceptedByEventWaitIsEvent` | Eventing.Library/Impl/EventManager.cs:51 | a message accepted by a list of types that all implement IEvent is an event, so `message as IEvent` is the message itself and never null |
| `Subscriptions.EventTypesSeeEventsItself` | Eventing.Library/Impl/EventManager.cs:160-165 | a list of IEvent types sees every message it accepts as the event itself |
| `Subscriptions.MessageSubscription.constructor` | Eventing.Library/Impl/MessageSubscription.cs:33-38 | the fields hold the given id, handler, owner, policy, context and types |
| `Subscriptions.MessageSubscription.New` | Eventing.Library/Impl/MessageSubscription.cs:30-43 | construction fails with ArgumentNullException("synchronizationContext") exactly when neither an explicit nor an ambient context exists; otherwise the explicit context wins and the fields are as given |
| `Subscriptions.MessageSubscription.Contains` | Eventing.Library/Impl/MessageSubscription.cs:94-96 | a subscription accepts `t` exactly when one of its declared types is assignable from `t` |
| `Subscriptions.MessageSubscription.SetPolicy` | Eventing.Library/Impl/MessageSubscription.cs:80 | the public setter replaces the unsubscribe policy |
| `Subscriptions.MessageSubscription.ProccessMessage` | Eventing.Library/Impl/MessageSubscription.cs:102-105 | the handler is not run; exactly one callback delivering the message to it is posted to the subscription's own context |
| `Subscriptions.MessageSubscription.Create1` | Eventing.Library/Impl/MessageSubscription.cs:119-123 | `Create<T>` gives a subscription accepting exactly `[T]`, by default owned by null with the Manual policy, and fails as the constructor does |
| `Subscriptions.MessageSubscription.Create2` | Eventing.Library/Impl/MessageSubscription.cs:138-143 | `Create<T1, T2>` accepts exactly `[T1, T2]` |
| `Subscriptions.MessageSubscription.Create3` | Eventing.Library/Impl/MessageSubscription.cs:159-164 | `Create<T1, T2, T3>` accepts exactly `[T1, T2, T3]` |
| `Bus.Matching` | Eventing.Library/Impl/MessageBus.cs:36-40 | the send snapshot holds exactly the registered subscriptions that accept the type, each as often as it is registered |
| `Bus.MatchingKeepsOrder` | Eventing.Library/Impl/MessageBus.cs:37-39 | the snapshot keeps registry order |
| `Bus.AutoOf` | Eventing.Library/Impl/MessageBus.cs:116-118 | the selection holds exactly the Auto subscriptions of the snapshot |
| `Bus.AfterSend` | Eventing.Library/Impl/MessageBus.cs:115-126 | after a send, exactly the Auto subscriptions that accept the type are gone (every occurrence), and every other entry keeps its count |
| `Bus.AfterSendKeepsOrder` | Eventing.Library/Impl/MessageBus.cs:124 | the entries that stay keep their order |
| `Bus.RoutedIsDeliveries` | Eventing.Library/Impl/MessageBus.cs:49-50 | what reaches a context is one delivery per snapshot entry on that context, in snapshot order |
| `Bus.RoutedElsewhere` | Eventing.Library/Impl/MessageBus.cs:49-50 | a context that no snapshot entry uses receives nothing |
| `Bus.DeliveredOncePerMatch` | Eventing.Library/Impl/MessageBus.cs:36-50 | a context receives one delivery per registered occurrence of each matching subscription on it, and none for the others |
| `Bus.GoneIsNeverDelivered` | Eventing.Library/Impl/MessageBus.cs:32-55 | over any later sequence of sends, a subscription that is not registered is never delivered |
| `Bus.AutoDeliveredAtMostOnce` | Eventing.Library/Model/UnsubscribePolicy.cs:8-11 | an Auto subscription registered at most once is delivered at most once over any sequence of sends |
| `Bus.CountAccepted` | Eventing.Library/Impl/MessageSubscription.cs:94-96 | the number of sends in a sequence whose type the subscription accepts, at most the length of the sequence |
| `Bus.ManualDeliveredEveryTime` | Eventing.Library/Model/UnsubscribePolicy.cs:3-6 | over any sequence of sends, a Manual subscription registered once is delivered exactly once for each send whose type it accepts, and never otherwise |
| `Bus.SubscribeUnsubscribe` | Eventing.Library/Impl/MessageBus.cs:61-77 | Subscribe then Unsubscribe gives back the same bag of subscriptions, and the same list when the subscription was new |
| `Bus.ProcessAll` | Eventing.Library/Impl/MessageBus.cs:49-50 | the delivery loop appends to each open context, in order, one callback per snapshot entry on it; closed contexts and all flags are unchanged |
| `Bus.MessageBus.constructor` | Eventing.Library/Impl/MessageBus.cs:15-17 | a new bus has no subscriptions |
| `Bus.MessageBus.GetSubscriptions` | Eventing.Library/Impl/MessageBus.cs:23-26 | returns the registry, in order |
| `Bus.MessageBus.Subscribe` | Eventing.Library/Impl/MessageBus.cs:61-66 | appends the subscription, without a duplicate check |
| `Bus.MessageBus.Unsubscribe` | Eventing.Library/Impl/MessageBus.cs:72-77 | removes the first occurrence only, which takes one off the subscription's count; a non-member is a no-op; a null argument leaves the registry as it is and throws NullReferenceException |
| `Bus.MessageBus.UnsubscribeAll` | Eventing.Library/Impl/MessageBus.cs:83-90 | removes every occurrence of every member of the collection; the other entries keep their counts and their order; a null collection throws ArgumentNullException("source") with the registry unchanged, unless the registry is empty |
| `Bus.MessageBus.UnsubscribeOwner` | Eventing.Library/Impl/MessageBus.cs:96-99 | removes exactly the entries with that owner, keeping the rest in order |
| `Bus.MessageBus.UnsubscribeOwnerType` | Eventing.Library/Impl/MessageBus.cs:106-109 | removes exactly the entries with that owner that accept the type, keeping the rest in order |
| `Bus.MessageBus.UnsubscribeAutoSubscriptions` | Eventing.Library/Impl/MessageBus.cs:115-126 | removes the Auto members of the snapshot, and leaves the registry alone when there are none |
| `Bus.MessageBus.Send` | Eventing.Library/Impl/MessageBus.cs:32-55 | the snapshot is `Matching`, and the registry becomes `AfterSend`; every open context gets the routed deliveries appended; closed contexts and all flags are unchanged |
| `Seqs.Where` | Eventing.Library/Impl/MessageBus.cs:37-39 | LINQ `Where` (and `RemoveAll`, by its negation) keeps only elements that satisfy the predicate, drawn from the input, and no more of them than the input has |
| `Seqs.RemoveFirst` | Eventing.Library/Impl/MessageBus.cs:74 | `List.Remove` shortens a list holding the element by one, and leaves a list without it alone |
| `Seqs.RemoveFirstSplice` | Eventing.Library/Impl/MessageBus.cs:74 | `List.Remove` keeps everything before the first occurrence and everything after it |
| `Seqs.RemoveFirstCount` | Eventing.Library/Impl/MessageBus.cs:74 | `List.Remove` drops exactly one occurrence of a member and leaves a non-member's list alone |
| `Seqs.RemoveLast` | Eventing.Library/Impl/SingleThreadSynchronizationContext.cs:84 | removing a delegate from an invocation list shortens a list holding it by one, and leaves a list without it alone |
| `Seqs.RemoveLastCount` | Eventing.Library/Impl/SingleThreadSynchronizationContext.cs:84 | removing a delegate drops exactly one of its occurrences |
| `Seqs.RemoveLastAppended` | Eventing.Library/Impl/SingleThreadSynchronizationContext.cs:84 | `-=` undoes the latest `+=` of the same handler |
| `Events.WaitTimer.constructor` | Eventing.Library/Impl/EventManager.cs:66-73 | the timer is bound to the wait's task, subscription and bus |
| `Events.WaitTimer.Elapse` | Eventing.Library/Impl/EventManager.cs:66-72 | a time-out fires exactly when the task is still pending. It then resolves the task to null and removes the first occurrence of the wait's subscription; otherwise it changes nothing |
| `Events.EventManager.constructor` | Eventing.Library/Impl/EventManager.cs:16-18 | the manager is bound to its bus |
| `Events.EventManager.RaiseEvent` | Eventing.Library/Impl/EventManager.cs:24-28 | raising an event is exactly a bus send |
| `Events.EventManager.WaitFor` | Eventing.Library/Impl/EventManager.cs:40-82 | an empty type list throws ArgumentException("eventTypes") first. With no ambient context it throws ArgumentNullException, and the bus is unchanged on both failures. Otherwise it makes a fresh pending task and one fresh Auto subscription owned by the manager for exactly those types, appends it, and arms a timer bound to both exactly when a time-out was given |
| `Events.EventManager.WaitFor1` | Eventing.Library/Impl/EventManager.cs:163-166 | `WaitFor<T>` registers a wait for `[T]`; every message the wait accepts reaches its handler as the event itself, so the task ends with that event or, on a time-out, null |
| `Events.EventManager.WaitFor2` | Eventing.Library/Impl/EventManager.cs:177-181 | `WaitFor<T1, T2>` registers a wait for `[T1, T2]`; every message the wait accepts reaches its handler as the event itself, so the task ends with that event or, on a time-out, null |
| `Events.EventManager.WaitFor3` | Eventing.Library/Impl/EventManager.cs:193-198 | `WaitFor<T1, T2, T3>` registers a wait for `[T1, T2, T3]`; every message the wait accepts reaches its handler as the event itself, so the task ends with that event or, on a time-out, null |
| `Events.EventManager.WaitFor4` | Eventing.Library/Impl/EventManager.cs:211-217 | `WaitFor<T1..T4>` registers a wait for the four types; every message the wait accepts reaches its handler as the event itself, so the task ends with that event or, on a time-out, null |
| `Events.EventManager.WaitFor5` | Eventing.Library/Impl/EventManager.cs:231-238 | `WaitFor<T1..T5>` registers a wait for the five types; every message the wait accepts reaches its handler as the event itself, so the task ends with that event or, on a time-out, null |
| `Events.EventManager.StartReceiving` | Eventing.Library/Impl/EventManager.cs:136-151 | a missing context throws first, then a null listener throws a null-reference error; otherwise one fresh Manual subscription for `[T]` is appended, owned by the listener and running the filtering closure; the bus is unchanged on failure |
| `Events.EventManager.StartReceivingFromTarget` | Eventing.Library/Impl/EventManager.cs:117-123 | a null handler throws NullReferenceException when its target is read, a handler without a target throws ArgumentException("handler"); otherwise it behaves as `StartReceiving` with the target as listener |
| `Events.EventManager.StopReceiving` | Eventing.Library/Impl/EventManager.cs:88-93 | a null listener throws a null-reference error with the bus unchanged; otherwise the listener's subscriptions are removed |
| `Events.EventManager.StopReceivingType` | Eventing.Library/Impl/EventManager.cs:100-105 | `StopReceiving<T>`: a null listener throws a null-reference error; otherwise the listener's subscriptions that accept `T` are removed |
| `Events.WaiterAttempts` | Eventing.Library/Impl/EventManager.cs:50-58 | the wait's handler attempts to resolve the task to `message as IEvent` exactly when there is no filter or the filter accepts, and then does not throw; a rejecting filter makes no attempt; a throwing filter makes no attempt and its exception escapes the callback |
| `Scenarios.TerminatesTaskByTimeout` | Eventing.Tests/EventManagerTests.cs:16-23 | a wait whose time-out elapses first ends with a null result, and the bus is empty |
| `Scenarios.WaitsForAppropriateMessage` | Eventing.Tests/EventManagerTests.cs:26-38 | a message of an unrelated type is ignored, and the wait ends with a message of its own type (or a derived one) |
| `Scenarios.WaitsForFirstMessage` | Eventing.Tests/EventManagerTests.cs:41-50 | a wait for two types ends with a message of the first type |
| `Scenarios.WaitsForMessage` | Eventing.Tests/EventManagerTests.cs:53-63 | a wait for one event type ends with the message of that type (or a derived one), with no assumption on the message beyond its type |
| `Scenarios.NonEventWaitLooksLikeTimeout` | Eventing.Library/Impl/EventManager.cs:40-58 | a general `WaitFor` on a type that is not an event, with no time-out, ends with a null result when a message of that type arrives |
| `Scenarios.RejectedEventConsumesWait` | Eventing.Library/Impl/EventManager.cs:50-68 | a matching event that the filter rejects still removes the Auto subscription; the task stays pending, the bus is empty, and only the time-out can end the wait (with null) |
| `Scenarios.ThrowingFilterConsumesWait` | Eventing.Library/Impl/EventManager.cs:50-68 | a matching event on which the filter throws still removes the Auto subscription; the filter's exception escapes RunAllOperations, the task stays pending, the bus is empty, and only the time-out can end the wait (with null) |
| `Scenarios.EventBeatsTimeout` | Eventing.Library/Impl/EventManager.cs:55-72 | when the event resolves the wait first, the later time-out does not fire and the result stays the event |
| `Scenarios.TimeoutBeatsEvent` | Eventing.Library/Impl/EventManager.cs:55-72 | when the time-out fires first, the task resolves to null and a later matching event reaches no subscription and queues nothing |
| `Scenarios.NullHandlerThrowsOnDelivery` | Eventing.Library/Impl/MessageSubscription.cs:102-105 | a subscription with a null handler is registered and delivered to; the drain then throws NullReferenceException, and the Manual subscription stays |
| `Scenarios.DetachedObserverRethrows` | Eventing.Library/Impl/SingleThreadSynchronizationContext.cs:84-105 | with an UnhandledException handler attached, the worker loop survives a throwing callback; once the handler is detached, the same callback's exception is rethrown |
| `Scenarios.AutomaticallyUnsubscribes` | Eventing.Tests/MessageBusTests.cs:12-20 | an Auto subscription's handler runs on the next drain, and the subscription is gone after the send |
| `Scenarios.SendsMessage` | Eventing.Tests/MessageBusTests.cs:22-30 | a Manual subscription's handler runs on the next drain, and the subscription stays registered |

Behaviour the model keeps as the code has it:

- `Subscribe` does no duplicate check.
- `StartReceiving<T>(handler)` throws ArgumentException("handler") when the handler has no target.
- Only `WaitFor` rejects an empty type list. The `MessageSubscription` constructor accepts one.
- With no observer, `RunOnCurrentThread` rethrows a callback's exception, and `RunAllOperations` does not catch it.
- A null handler is accepted when subscribing. It throws NullReferenceException only when a message reaches it.

## Findings

| source | as written | input that shows it | evidently intended | confidence | as-written member | corrected member |
|---|---|---|---|---|---|---|
| Eventing.Library/Impl/EventManager.cs:40-58 | `WaitFor(timeout, filter, params Type[] eventTypes)` accepts any type, and its handler resolves the task to `message as IEvent` | `WaitFor(null, null, typeof(X))` with `X` not an IEvent, then `Send(new X())` and a drain: the task ends with null and no timer exists | the documented result: an event of one of the expected types, or null only after a time-out. This holds when every type implements IEvent, as the typed `WaitFor<T…>` overloads require | medium, not executed | `Scenarios.NonEventWaitLooksLikeTimeout` | `Subscriptions.EventTypesSeeEventsItself` |

The typed `WaitFor<T…>` overloads carry the intended property through `Subscriptions.EventTypesSeeEventsItself`, and the wait scenarios derive from it that their message is seen as itself.

## Left out

- Locks, the worker thread, and the blocking waits of the collection and of `Task.Wait`. One sequential interleaving is modelled. `RunOnCurrentThread` is modelled up to the point where the queue is empty, where the real loop would block.
- `Run` and the thread name. These exist only to start the worker thread.
- `SetSynchronizationContext` and the thread-local `SynchronizationContext.Current`. The ambient context is an explicit parameter.
- `Timer` and `TimeSpan` values. A time-out is a flag, and its firing is the call to `Events.WaitTimer.Elapse`. A negative time-out (other than the infinite one) makes `timer.Change` throw ArgumentOutOfRangeException after `Subscribe`, which leaves the Auto subscription registered. That path is not modelled.
- `Guid.NewGuid()`. The id is a parameter, and its uniqueness is not modelled.
- Tracing (`TraceSource`). With verbose tracing switched on, `Unsubscribe(collection)` with a null collection also throws on an empty registry; the model has tracing off.
- The interface files. The model works with the implementing classes.
- A null message passed to `Send` or `RaiseEvent`. Both would throw at `message.GetType()` or inside the trace call. The model's `Message` is never null.
- The `(T)` cast in the receiving closure. The bus only delivers messages whose type the subscription accepts, so the cast cannot fail; the filter and handler see the message itself.
- What an UnhandledException handler does. A handler is a token in the invocation list; its own exceptions are not modelled.
- User code. A handler is abstracted to a token, a finite script of callbacks it posts, and whether it throws. A filter is abstracted to a verdict and a throwing condition on its input. Arbitrary code, side effects of filters, and unbounded re-posting are not modelled.
- Other `SynchronizationContext` implementations. Every subscription posts to a `SingleThreadSynchronizationContext`.
- The test fixture's `React` loop, which calls `RunAllOperations` until it returns false. The scenarios drain once: when nothing throws, a drain leaves the queue empty, so a second call only returns false.
- `Events.EventManager.WaitFor`: returns the task together with the subscription and timer it created, so that the time-out can be driven. In the library only the task is returned.
- `Bus.MessageBus.Subscribe`: a null subscription is not modelled; the registry holds only real subscriptions. The library appends the null and then throws NullReferenceException reading its Id, and afterwards every `Send` throws on that entry. `Bus.MessageBus.Unsubscribe` and `Bus.MessageBus.UnsubscribeAll` rely on the registry holding no null.
- `Subscriptions.MessageSubscription.constructor`: the accepted types are a value fixed at construction. The library keeps the caller's `params Type[]` array by reference and exposes it through `MessagesTypes`, so a caller who writes to that array later changes what `Contains` accepts.
- `Bus.MessageBus.Send`: returns the snapshot it delivered to, so that the delivery can be stated. The library returns nothing.
- `Bus.ManualDeliveredEveryTime`: is stated only for a subscription registered once, not for a count of k giving k deliveries per accepted send.
- `SyncContext.SingleThreadSynchronizationContext.RunAllOperations`, `RunOnCurrentThread` and `DrainQueue`: return the callbacks they ran, and `Execute` returns the effect it had, so that their runs can be stated. The library returns only the boolean (or nothing).

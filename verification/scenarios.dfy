/**
  The library's own unit tests, replayed on the model: each scenario builds a fresh context,
  bus and manager (the test fixture's setup), drives them as the test does and states what the
  test asserts. Draining the context once stands for the fixture's React step.
 */
module Scenarios {
  import opened Wrappers
  import opened Model
  import opened Types
  import opened Seqs
  import opened Tasks
  import opened Callbacks
  import opened SyncContext
  import opened Subscriptions
  import opened Bus
  import opened Events

  /** Sending to a registry of one subscription that accepts the message selects it. */
  lemma SoleMatch(s: MessageSubscription, t: EventType)
    requires s.Contains(t)
    ensures Matching([s], t) == [s]
  {
    assert [s][1..] == [];
  }

  /** Sending to a registry of one subscription that does not accept the message changes nothing. */
  lemma SoleMiss(s: MessageSubscription, t: EventType)
    requires !s.Contains(t)
    ensures Matching([s], t) == [] && AfterSend([s], t) == [s]
  {
    assert [s][1..] == [];
    WhereKeepsAll([s], NotIn([]));
  }

  /** An Auto subscription alone on the bus leaves it when it matches. */
  lemma SoleAutoLeaves(s: MessageSubscription, t: EventType)
    requires s.Contains(t) && s.policy == Auto
    ensures AfterSend([s], t) == []
  {
    var r: seq<MessageSubscription> := AfterSend([s], t);
    assert multiset(r)[s] == 0;
  }

  /** A Manual subscription alone on the bus stays on it. */
  lemma SoleManualStays(s: MessageSubscription, t: EventType)
    requires s.Contains(t) && s.policy == Manual
    ensures AfterSend([s], t) == [s]
  {
    SoleMatch(s, t);
    assert AutoOf([s]) == [] by { assert [s][1..] == []; }
    WhereKeepsAll([s], NotIn([]));
  }

  /** One subscription posts one callback to its own context. */
  lemma SoleRouted(s: MessageSubscription, m: Message)
    ensures Routed([s], s.context, m) == [Deliver(s.handler, m)]
  {
    assert [s][..0] == [];
  }

  /**
    Draining a queue of one callback that posts nothing runs it and empties the queue; the
    drain faults with its exception when it throws unobserved.
   */
  lemma SoleDrain(cb: Callback, closed: bool, swallow: bool)
    requires PostsOf(EffectOf(cb)) == []
    ensures Drain([cb], closed, swallow) ==
      DrainResult([cb], [], if Throws(EffectOf(cb)) && !swallow then Some(Thrown(EffectOf(cb))) else None)
  {
    DrainUnfold([cb], closed, swallow);
    assert [cb][1..] + [] == [];
  }

  /**
    A wait registered by a typed `WaitFor<T>` accepts a message of `T` or of a type derived from
    it, and sees it as the event itself.
   */
  lemma WaitSeesMessage(s: MessageSubscription, t: EventType, m: Message)
    requires s.messagesTypes == [t] && SeesEventsItself([t]) && IsAssignableFrom(t, m.runtimeType)
    ensures s.Contains(m.runtimeType) && AsEvent(m) == Some(m)
  {
    assert Accepts([t], m.runtimeType);
  }

  /**
    Send on a bus holding the one subscription `s`: its context receives the delivery when `s`
    accepts the message and is open, and `s` leaves the bus when it accepted and is Auto.
   */
  method SendToSole(bus: MessageBus, s: MessageSubscription, m: Message)
    requires bus.subscriptions == [s]
    modifies bus, s.context
    ensures s.context.addingCompleted == old(s.context.addingCompleted)
    ensures s.context.operations == old(s.context.operations) +
      (if s.Contains(m.runtimeType) && !s.context.addingCompleted then [Deliver(s.handler, m)] else [])
    ensures bus.subscriptions == if s.Contains(m.runtimeType) && s.policy == Auto then [] else [s]
  {
    var t := m.runtimeType;
    assert Contexts([s]) == {s.context} by { assert [s][1..] == []; }
    if s.Contains(t) {
      SoleMatch(s, t);
      SoleRouted(s, m);
      if s.policy == Auto {
        SoleAutoLeaves(s, t);
      } else {
        SoleManualStays(s, t);
      }
    } else {
      SoleMiss(s, t);
    }
    var _ := bus.Send(m);
  }

  /**
    The fixture's React step on a context holding only the delivery of `m` to a pending wait:
    the drain resolves the wait to the event when the filter lets it through and leaves it
    pending otherwise; a throwing filter's exception escapes RunAllOperations.
   */
  method ReactOnWait(context: SingleThreadSynchronizationContext, task: CompletionCell,
                     filter: Option<UserFilter<Option<Message>>>, m: Message)
    returns (r: Result<bool, Error>)
    requires context.operations == [Deliver(Waiter(task, filter), m)]
    requires task.state == Pending
    modifies context, task
    ensures context.operations == []
    ensures var event := AsEvent(m);
      task.state ==
        if filter.None? || (!filter.value.throwsOn(event) && filter.value.accepts(event)) then Done(event)
        else Pending
    ensures r == if filter.Some? && filter.value.throwsOn(AsEvent(m))
      then Failure(CallbackError(filter.value.token)) else Success(true)
  {
    var cb := Deliver(Waiter(task, filter), m);
    assert CellsIn([cb]) == {task} by { assert [cb][1..] == []; }
    SoleDrain(cb, context.addingCompleted, false);
    var ran;
    r, ran := context.RunAllOperations();
    WaiterAttempts(task, filter, m);
    FirstAttemptWins([AsEvent(m)]);
  }

  /** A wait whose timeout elapses first ends with a null result and leaves no subscription behind. */
  method TerminatesTaskByTimeout(t: EventType) returns (result: Completion, remaining: nat)
    requires IsAssignableFrom(IEvent, t)
    ensures result == Done(None) && remaining == 0
  {
    var context := new SingleThreadSynchronizationContext();
    var bus := new MessageBus();
    var manager := new EventManager(bus);
    var waiting := manager.WaitFor1(t, context, 1, timeout := true);
    var w := waiting.value;
    var fired := w.timer.value.Elapse();
    result := w.task.state;
    var subscriptions := bus.GetSubscriptions();
    remaining := |subscriptions|;
  }

  /**
    A wait for one event type ignores a message of another type and ends with the first message
    of its own type.
   */
  method WaitsForAppropriateMessage(t: EventType, other: Message, expected: Message) returns (result: Completion)
    requires IsAssignableFrom(IEvent, t)
    requires !IsAssignableFrom(t, other.runtimeType) && IsAssignableFrom(t, expected.runtimeType)
    ensures result == Done(Some(expected))
  {
    var context := new SingleThreadSynchronizationContext();
    var bus := new MessageBus();
    var manager := new EventManager(bus);
    var waiting := manager.WaitFor1(t, context, 1);
    var w := waiting.value;
    var s := w.subscription;

    SendToSole(bus, s, other);
    WaitSeesMessage(s, t, expected);
    SendToSole(bus, s, expected);

    var _ := ReactOnWait(context, w.task, None, expected);
    result := w.task.state;
  }

  /** A wait for one event type ends with the message of that type sent after it. */
  method WaitsForMessage(t: EventType, m: Message) returns (result: Completion)
    requires IsAssignableFrom(IEvent, t) && IsAssignableFrom(t, m.runtimeType)
    ensures result == Done(Some(m))
  {
    var context := new SingleThreadSynchronizationContext();
    var bus := new MessageBus();
    var manager := new EventManager(bus);
    var waiting := manager.WaitFor1(t, context, 1);
    var w := waiting.value;

    WaitSeesMessage(w.subscription, t, m);
    SendToSole(bus, w.subscription, m);

    var _ := ReactOnWait(context, w.task, None, m);
    result := w.task.state;
  }

  /**
    The general `WaitFor` on a type that is not an event (here a type with no supertype): a
    message of that type reaches the wait, `message as IEvent` gives null, and the task ends
    with null although no timer was ever armed, which is what a timeout looks like.
   */
  method NonEventWaitLooksLikeTimeout() returns (result: Completion, armed: bool, remaining: nat)
    ensures result == Done(None) && !armed && remaining == 0
  {
    var t := EventType(7, []);
    var m := Message(t, 0);
    var context := new SingleThreadSynchronizationContext();
    var bus := new MessageBus();
    var manager := new EventManager(bus);
    var waiting := manager.WaitFor(false, None, [t], 1, context);
    var w := waiting.value;

    AcceptsOwnTypes([t], 0);
    SendToSole(bus, w.subscription, m);
    var _ := ReactOnWait(context, w.task, None, m);
    result := w.task.state;
    armed := w.timer.Some?;
    var subscriptions := bus.GetSubscriptions();
    remaining := |subscriptions|;
  }

  /** A wait for two event types ends with a message of the first of them. */
  method WaitsForFirstMessage(t1: EventType, t2: EventType, m: Message) returns (result: Completion)
    requires IsAssignableFrom(IEvent, t1) && IsAssignableFrom(IEvent, t2)
    requires m.runtimeType == t1
    ensures result == Done(Some(m))
  {
    var context := new SingleThreadSynchronizationContext();
    var bus := new MessageBus();
    var manager := new EventManager(bus);
    var waiting := manager.WaitFor2(t1, t2, context, 1);
    var w := waiting.value;
    var s := w.subscription;

    AcceptsOwnTypes([t1, t2], 0);
    SendToSole(bus, s, m);

    assert AsEvent(m) == Some(m);
    var _ := ReactOnWait(context, w.task, None, m);
    result := w.task.state;
  }

  /**
    A wait whose filter rejects the first matching event loses its subscription to it all the
    same: the task stays pending, the bus is empty, and only the timeout can still end the wait.
   */
  method RejectedEventConsumesWait(t: EventType, m: Message, filter: UserFilter<Option<Message>>)
    returns (afterEvent: Completion, remaining: nat, afterTimeout: Completion)
    requires IsAssignableFrom(IEvent, t) && IsAssignableFrom(t, m.runtimeType)
    requires !filter.throwsOn(Some(m)) && !filter.accepts(Some(m))
    ensures afterEvent == Pending && remaining == 0 && afterTimeout == Done(None)
  {
    var context := new SingleThreadSynchronizationContext();
    var bus := new MessageBus();
    var manager := new EventManager(bus);
    var waiting := manager.WaitFor1(t, context, 1, timeout := true, filter := Some(filter));
    var w := waiting.value;
    var s := w.subscription;

    WaitSeesMessage(w.subscription, t, m);
    SendToSole(bus, s, m);

    var _ := ReactOnWait(context, w.task, Some(filter), m);
    afterEvent := w.task.state;
    var subscriptions := bus.GetSubscriptions();
    remaining := |subscriptions|;

    var fired := w.timer.value.Elapse();
    afterTimeout := w.task.state;
  }

  /**
    A wait whose filter throws on the first matching event: the subscription is gone all the
    same, the filter's exception escapes the drain, the task stays pending, and only the
    timeout can still end the wait.
   */
  method ThrowingFilterConsumesWait(t: EventType, m: Message, filter: UserFilter<Option<Message>>)
    returns (drained: Result<bool, Error>, afterEvent: Completion, remaining: nat, afterTimeout: Completion)
    requires IsAssignableFrom(IEvent, t) && IsAssignableFrom(t, m.runtimeType)
    requires filter.throwsOn(Some(m))
    ensures drained == Failure(CallbackError(filter.token))
    ensures afterEvent == Pending && remaining == 0 && afterTimeout == Done(None)
  {
    var context := new SingleThreadSynchronizationContext();
    var bus := new MessageBus();
    var manager := new EventManager(bus);
    var waiting := manager.WaitFor1(t, context, 1, timeout := true, filter := Some(filter));
    var w := waiting.value;

    WaitSeesMessage(w.subscription, t, m);
    SendToSole(bus, w.subscription, m);

    drained := ReactOnWait(context, w.task, Some(filter), m);
    afterEvent := w.task.state;
    var subscriptions := bus.GetSubscriptions();
    remaining := |subscriptions|;

    var fired := w.timer.value.Elapse();
    afterTimeout := w.task.state;
  }

  /**
    The race of a wait with a timeout, won by the event: the later timer finds the task
    resolved, does not fire, and leaves the task and the bus alone.
   */
  method EventBeatsTimeout(t: EventType, m: Message) returns (result: Completion, fired: bool, remaining: nat)
    requires IsAssignableFrom(IEvent, t) && IsAssignableFrom(t, m.runtimeType)
    ensures result == Done(Some(m)) && !fired && remaining == 0
  {
    var context := new SingleThreadSynchronizationContext();
    var bus := new MessageBus();
    var manager := new EventManager(bus);
    var waiting := manager.WaitFor1(t, context, 1, timeout := true);
    var w := waiting.value;

    WaitSeesMessage(w.subscription, t, m);
    SendToSole(bus, w.subscription, m);
    var _ := ReactOnWait(context, w.task, None, m);

    fired := w.timer.value.Elapse();
    result := w.task.state;
    var subscriptions := bus.GetSubscriptions();
    remaining := |subscriptions|;
  }

  /**
    The race of a wait with a timeout, won by the timer: it resolves the task to null and takes
    the subscription off the bus, so a later matching event reaches nobody.
   */
  method TimeoutBeatsEvent(t: EventType, m: Message) returns (result: Completion, fired: bool, delivered: nat, queued: nat)
    requires IsAssignableFrom(IEvent, t) && IsAssignableFrom(t, m.runtimeType)
    ensures result == Done(None) && fired && delivered == 0 && queued == 0
  {
    var context := new SingleThreadSynchronizationContext();
    var bus := new MessageBus();
    var manager := new EventManager(bus);
    var waiting := manager.WaitFor1(t, context, 1, timeout := true);
    var w := waiting.value;

    WaitSeesMessage(w.subscription, t, m);
    fired := w.timer.value.Elapse();
    var reached := manager.RaiseEvent(m);
    delivered := |reached|;
    queued := |context.operations|;
    result := w.task.state;
  }

  /**
    The fixture's React step on a context holding only the delivery of `m` to a plain handler
    that neither posts nor throws: the drain runs exactly that handler.
   */
  method ReactOnHandler(context: SingleThreadSynchronizationContext, code: UserCode, m: Message)
    returns (ran: seq<Callback>)
    requires context.operations == [Deliver(Plain(Some(code)), m)]
    requires code.posts == [] && !code.throws
    modifies context
    ensures ran == [Deliver(Plain(Some(code)), m)] && context.operations == []
  {
    var cb := Deliver(Plain(Some(code)), m);
    assert CellsIn([cb]) == {} by { assert [cb][1..] == []; }
    SoleDrain(cb, context.addingCompleted, false);
    var _, drained := context.RunAllOperations();
    ran := drained;
  }

  /**
    A subscription created with `Create<T>` and the Auto policy receives a message of its type:
    its handler runs on the next drain, and it is gone from the bus after that send.
   */
  method AutomaticallyUnsubscribes(t: EventType, code: UserCode) returns (ran: seq<Callback>, remaining: nat)
    requires code.posts == [] && !code.throws
    ensures ran == [Deliver(Plain(Some(code)), Message(t, 0))] && EffectOf(ran[0]) == RunsCode(code)
    ensures remaining == 0
  {
    var context := new SingleThreadSynchronizationContext();
    var bus := new MessageBus();
    var fixture := new object;
    var created := MessageSubscription.Create1(t, Plain(Some(code)), context, 1, owner := fixture, policy := Auto);
    var s := created.value;
    bus.Subscribe(s);
    var m := Message(t, 0);

    AcceptsOwnTypes([t], 0);
    SendToSole(bus, s, m);

    ran := ReactOnHandler(context, code, m);
    var subscriptions := bus.GetSubscriptions();
    remaining := |subscriptions|;
  }

  /**
    A subscription created with `Create<T>` and the default Manual policy receives a message of
    its type, and stays on the bus.
   */
  method SendsMessage(t: EventType, code: UserCode) returns (ran: seq<Callback>, remaining: nat)
    requires code.posts == [] && !code.throws
    ensures ran == [Deliver(Plain(Some(code)), Message(t, 0))] && EffectOf(ran[0]) == RunsCode(code)
    ensures remaining == 1
  {
    var context := new SingleThreadSynchronizationContext();
    var bus := new MessageBus();
    var fixture := new object;
    var created := MessageSubscription.Create1(t, Plain(Some(code)), context, 1, owner := fixture);
    var s := created.value;
    bus.Subscribe(s);
    var m := Message(t, 0);

    AcceptsOwnTypes([t], 0);
    SendToSole(bus, s, m);

    ran := ReactOnHandler(context, code, m);
    var subscriptions := bus.GetSubscriptions();
    remaining := |subscriptions|;
  }

  /**
    A subscription whose handler is null is accepted and receives a message; the
    NullReferenceException comes only when the delivery runs, and the subscription stays.
   */
  method NullHandlerThrowsOnDelivery(t: EventType) returns (drained: Result<bool, Error>, remaining: nat)
    ensures drained == Failure(NullReferenceError) && remaining == 1
  {
    var context := new SingleThreadSynchronizationContext();
    var bus := new MessageBus();
    var created := MessageSubscription.Create1(t, Plain(None), context, 1);
    var s := created.value;
    bus.Subscribe(s);
    var m := Message(t, 0);

    AcceptsOwnTypes([t], 0);
    SendToSole(bus, s, m);

    var cb := Deliver(Plain(None), m);
    assert CellsIn([cb]) == {} by { assert [cb][1..] == []; }
    SoleDrain(cb, context.addingCompleted, false);
    assert context.operations == [cb];
    var ran;
    drained, ran := context.RunAllOperations();
    var subscriptions := bus.GetSubscriptions();
    remaining := |subscriptions|;
  }

  /**
    The worker loop hands a throwing callback's exception to an attached UnhandledException
    handler and carries on; once that handler is detached again, the next such exception is
    rethrown.
   */
  method DetachedObserverRethrows(code: UserCode, observer: nat)
    returns (observed: Result<WorkerExit, Error>, unobserved: Result<WorkerExit, Error>)
    requires code.throws && code.posts == []
    ensures observed == Success(Idle) && unobserved == Failure(CallbackError(code.token))
  {
    var context := new SingleThreadSynchronizationContext();
    var cb := Posted(code);
    assert CellsIn([cb]) == {} by { assert [cb][1..] == []; }
    SoleDrain(cb, false, true);
    SoleDrain(cb, false, false);

    context.AddUnhandledExceptionObserver(observer);
    var _ := context.Post(Some(cb));
    assert context.operations == [cb];
    var ran;
    observed, ran := context.RunOnCurrentThread();

    context.RemoveUnhandledExceptionObserver(observer);
    RemoveLastAppended([], observer);
    var _ := context.Post(Some(cb));
    assert context.operations == [cb];
    unobserved, ran := context.RunOnCurrentThread();
  }
}

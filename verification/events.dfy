/**
  EventManager: raising events, one-shot waits for an event (with an optional filter and an
  optional timeout that race for the same completion cell) and long-lived receivers.
 */
module Events {
  import opened Wrappers
  import opened Model
  import opened Types
  import opened Seqs
  import opened Tasks
  import opened Callbacks
  import opened SyncContext
  import opened Subscriptions
  import opened Bus

  /**
    The armed timeout of one WaitFor: when it elapses it tries to resolve the task to null and,
    if that attempt wins, takes the wait's subscription off the bus.
   */
  class WaitTimer {
    const task: CompletionCell
    const subscription: MessageSubscription
    const bus: MessageBus

    constructor (task: CompletionCell, subscription: MessageSubscription, bus: MessageBus)
      ensures this.task == task && this.subscription == subscription && this.bus == bus
    {
      this.task := task;
      this.subscription := subscription;
      this.bus := bus;
    }

    /**
      The timer callback: `TrySetResult(null)`, then `Unsubscribe(subscription)` only when that
      attempt resolved the task. Losing the race (the task already resolved) does nothing.
     */
    method Elapse() returns (fired: bool)
      modifies task, bus
      ensures fired == old(task.state).Pending?
      ensures task.state == Settle(old(task.state), None)
      ensures bus.subscriptions ==
        if fired then RemoveFirst(old(bus.subscriptions), subscription) else old(bus.subscriptions)
    {
      fired := task.TrySetResult(None);
      if fired {
        var _ := bus.Unsubscribe(subscription);
      }
    }
  }

  /** The handles of one wait: its task, the subscription feeding it and its timer, if any. */
  datatype Wait = Wait(task: CompletionCell, subscription: MessageSubscription, timer: Option<WaitTimer>)

  class EventManager {
    const bus: MessageBus

    constructor (bus: MessageBus)
      ensures this.bus == bus
    {
      this.bus := bus;
    }

    /**
      What a successful WaitFor leaves behind: a fresh pending task, one fresh Auto subscription
      owned by this manager on the resolved context, accepting exactly `eventTypes`, appended to
      the bus, and a fresh timer racing for the same task exactly when a timeout was given.
     */
    twostate predicate Registered(new w: Wait, timeout: bool, filter: Option<UserFilter<Option<Message>>>,
                                  eventTypes: seq<EventType>, id: nat, context: SingleThreadSynchronizationContext)
      reads this, bus, w.task, w.subscription
    {
      && fresh(w.task) && w.task.state == Pending
      && fresh(w.subscription)
      && w.subscription.id == id
      && w.subscription.handler == Waiter(w.task, filter)
      && w.subscription.owner == this
      && w.subscription.policy == Auto
      && w.subscription.context == context
      && w.subscription.messagesTypes == eventTypes
      && bus.subscriptions == old(bus.subscriptions) + [w.subscription]
      && (w.timer.Some? <==> timeout)
      && (w.timer.Some? ==>
            && fresh(w.timer.value)
            && w.timer.value.task == w.task
            && w.timer.value.subscription == w.subscription
            && w.timer.value.bus == bus)
    }

    /** RaiseEvent: sends the event on the bus. */
    method RaiseEvent(e: Message) returns (delivered: seq<MessageSubscription>)
      requires IsEvent(e)
      modifies bus, Contexts(bus.subscriptions)
      ensures delivered == Matching(old(bus.subscriptions), e.runtimeType)
      ensures bus.subscriptions == AfterSend(old(bus.subscriptions), e.runtimeType)
      ensures forall c :: c in old(Contexts(bus.subscriptions)) ==>
        c.addingCompleted == old(c.addingCompleted) && c.observers == old(c.observers)
      ensures forall c :: c in old(Contexts(bus.subscriptions)) && !c.addingCompleted ==>
        c.operations == old(c.operations) + Routed(delivered, c, e)
      ensures forall c :: c in old(Contexts(bus.subscriptions)) && c.addingCompleted ==>
        c.operations == old(c.operations)
    {
      delivered := bus.Send(e);
    }

    /**
      WaitFor: an empty type list throws before anything happens; so does a missing context
      (neither is there an ambient one: WaitFor passes none explicitly). Otherwise it registers
      the wait as described by Registered.
     */
    method WaitFor(timeout: bool, filter: Option<UserFilter<Option<Message>>>, eventTypes: seq<EventType>,
                   id: nat, ambient: SingleThreadSynchronizationContext?)
      returns (r: Result<Wait, Error>)
      modifies bus
      ensures eventTypes == [] ==> r == Failure(ArgumentError("eventTypes"))
      ensures eventTypes != [] && ambient == null ==> r == Failure(ArgumentNullError("synchronizationContext"))
      ensures r.Failure? ==> bus.subscriptions == old(bus.subscriptions)
      ensures eventTypes != [] && ambient != null ==>
        r.Success? && Registered(r.value, timeout, filter, eventTypes, id, ambient)
    {
      if |eventTypes| == 0 {
        return Failure(ArgumentError("eventTypes"));
      }
      var task := new CompletionCell();
      var created := MessageSubscription.New(id, Waiter(task, filter), this, Auto, null, ambient, eventTypes);
      if created.Failure? {
        return Failure(created.error);
      }
      var subscription := created.value;
      bus.Subscribe(subscription);
      var timer := None;
      if timeout {
        var t := new WaitTimer(task, subscription, bus);
        timer := Some(t);
      }
      r := Success(Wait(task, subscription, timer));
    }

    /** `WaitFor<T>`. */
    method WaitFor1(t: EventType, ambient: SingleThreadSynchronizationContext?, id: nat,
                    timeout: bool := false, filter: Option<UserFilter<Option<Message>>> := None)
      returns (r: Result<Wait, Error>)
      requires IsAssignableFrom(IEvent, t)
      modifies bus
      ensures ambient == null ==>
        r == Failure(ArgumentNullError("synchronizationContext")) && bus.subscriptions == old(bus.subscriptions)
      ensures ambient != null ==> r.Success? && Registered(r.value, timeout, filter, [t], id, ambient)
      ensures ambient != null ==> SeesEventsItself(r.value.subscription.messagesTypes)
    {
      r := WaitFor(timeout, filter, [t], id, ambient);
      EventTypesSeeEventsItself([t]);
    }

    /** `WaitFor<T1, T2>`. */
    method WaitFor2(t1: EventType, t2: EventType, ambient: SingleThreadSynchronizationContext?, id: nat,
                    timeout: bool := false, filter: Option<UserFilter<Option<Message>>> := None)
      returns (r: Result<Wait, Error>)
      requires IsAssignableFrom(IEvent, t1) && IsAssignableFrom(IEvent, t2)
      modifies bus
      ensures ambient == null ==>
        r == Failure(ArgumentNullError("synchronizationContext")) && bus.subscriptions == old(bus.subscriptions)
      ensures ambient != null ==> r.Success? && Registered(r.value, timeout, filter, [t1, t2], id, ambient)
      ensures ambient != null ==> SeesEventsItself(r.value.subscription.messagesTypes)
    {
      r := WaitFor(timeout, filter, [t1, t2], id, ambient);
      EventTypesSeeEventsItself([t1, t2]);
    }

    /** `WaitFor<T1, T2, T3>`. */
    method WaitFor3(t1: EventType, t2: EventType, t3: EventType,
                    ambient: SingleThreadSynchronizationContext?, id: nat,
                    timeout: bool := false, filter: Option<UserFilter<Option<Message>>> := None)
      returns (r: Result<Wait, Error>)
      requires IsAssignableFrom(IEvent, t1) && IsAssignableFrom(IEvent, t2) && IsAssignableFrom(IEvent, t3)
      modifies bus
      ensures ambient == null ==>
        r == Failure(ArgumentNullError("synchronizationContext")) && bus.subscriptions == old(bus.subscriptions)
      ensures ambient != null ==> r.Success? && Registered(r.value, timeout, filter, [t1, t2, t3], id, ambient)
      ensures ambient != null ==> SeesEventsItself(r.value.subscription.messagesTypes)
    {
      r := WaitFor(timeout, filter, [t1, t2, t3], id, ambient);
      EventTypesSeeEventsItself([t1, t2, t3]);
    }

    /** `WaitFor<T1, T2, T3, T4>`. */
    method WaitFor4(t1: EventType, t2: EventType, t3: EventType, t4: EventType,
                    ambient: SingleThreadSynchronizationContext?, id: nat,
                    timeout: bool := false, filter: Option<UserFilter<Option<Message>>> := None)
      returns (r: Result<Wait, Error>)
      requires IsAssignableFrom(IEvent, t1) && IsAssignableFrom(IEvent, t2)
      requires IsAssignableFrom(IEvent, t3) && IsAssignableFrom(IEvent, t4)
      modifies bus
      ensures ambient == null ==>
        r == Failure(ArgumentNullError("synchronizationContext")) && bus.subscriptions == old(bus.subscriptions)
      ensures ambient != null ==> r.Success? && Registered(r.value, timeout, filter, [t1, t2, t3, t4], id, ambient)
      ensures ambient != null ==> SeesEventsItself(r.value.subscription.messagesTypes)
    {
      r := WaitFor(timeout, filter, [t1, t2, t3, t4], id, ambient);
      EventTypesSeeEventsItself([t1, t2, t3, t4]);
    }

    /** `WaitFor<T1, T2, T3, T4, T5>`. */
    method WaitFor5(t1: EventType, t2: EventType, t3: EventType, t4: EventType, t5: EventType,
                    ambient: SingleThreadSynchronizationContext?, id: nat,
                    timeout: bool := false, filter: Option<UserFilter<Option<Message>>> := None)
      returns (r: Result<Wait, Error>)
      requires IsAssignableFrom(IEvent, t1) && IsAssignableFrom(IEvent, t2)
      requires IsAssignableFrom(IEvent, t3) && IsAssignableFrom(IEvent, t4) && IsAssignableFrom(IEvent, t5)
      modifies bus
      ensures ambient == null ==>
        r == Failure(ArgumentNullError("synchronizationContext")) && bus.subscriptions == old(bus.subscriptions)
      ensures ambient != null ==>
        r.Success? && Registered(r.value, timeout, filter, [t1, t2, t3, t4, t5], id, ambient)
      ensures ambient != null ==> SeesEventsItself(r.value.subscription.messagesTypes)
    {
      r := WaitFor(timeout, filter, [t1, t2, t3, t4, t5], id, ambient);
      EventTypesSeeEventsItself([t1, t2, t3, t4, t5]);
    }

    /**
      `StartReceiving<T>(handler, listener, filter, context)`: resolves the context first (and
      throws without one), then dereferences the listener for the trace line (and throws on
      null), then appends one Manual subscription for `[t]`, owned by `listener`, whose handler
      calls the user handler when the filter is absent or accepts. A null handler is accepted
      here; it throws only when a message reaches it.
     */
    method StartReceiving(t: EventType, code: Option<UserCode>, listener: object?, filter: Option<UserFilter<Message>>,
                          context: SingleThreadSynchronizationContext?,
                          ambient: SingleThreadSynchronizationContext?, id: nat)
      returns (r: Result<MessageSubscription, Error>)
      requires IsAssignableFrom(IEvent, t)
      modifies bus
      ensures context == null && ambient == null ==> r == Failure(ArgumentNullError("synchronizationContext"))
      ensures (context != null || ambient != null) && listener == null ==> r == Failure(NullReferenceError)
      ensures r.Failure? ==> bus.subscriptions == old(bus.subscriptions)
      ensures (context != null || ambient != null) && listener != null ==> r.Success?
      ensures r.Success? ==> var s := r.value;
        && fresh(s)
        && s.id == id && s.handler == Receiver(code, filter) && s.owner == listener
        && s.policy == Manual && s.messagesTypes == [t]
        && s.context == (if context != null then context else ambient)
        && bus.subscriptions == old(bus.subscriptions) + [s]
    {
      var created := MessageSubscription.New(id, Receiver(code, filter), listener, Manual, context, ambient, [t]);
      if created.Failure? {
        return Failure(created.error);
      }
      if listener == null {
        return Failure(NullReferenceError);
      }
      var s := created.value;
      bus.Subscribe(s);
      r := Success(s);
    }

    /**
      `StartReceiving<T>(handler, filter, context)`: the listener is the handler's target
      object; reading the target of a null handler throws NullReferenceException, and a handler
      without a target is refused with ArgumentException("handler").
     */
    method StartReceivingFromTarget(t: EventType, code: Option<UserCode>, target: object?, filter: Option<UserFilter<Message>>,
                                    context: SingleThreadSynchronizationContext?,
                                    ambient: SingleThreadSynchronizationContext?, id: nat)
      returns (r: Result<MessageSubscription, Error>)
      requires IsAssignableFrom(IEvent, t)
      modifies bus
      ensures code.None? ==> r == Failure(NullReferenceError)
      ensures code.Some? && target == null ==> r == Failure(ArgumentError("handler"))
      ensures code.Some? && target != null && context == null && ambient == null ==>
        r == Failure(ArgumentNullError("synchronizationContext"))
      ensures r.Failure? ==> bus.subscriptions == old(bus.subscriptions)
      ensures code.Some? && target != null && (context != null || ambient != null) ==> r.Success?
      ensures r.Success? ==> var s := r.value;
        && fresh(s)
        && s.id == id && s.handler == Receiver(code, filter) && s.owner == target
        && s.policy == Manual && s.messagesTypes == [t]
        && s.context == (if context != null then context else ambient)
        && bus.subscriptions == old(bus.subscriptions) + [s]
    {
      if code.None? {
        return Failure(NullReferenceError);
      }
      if target == null {
        return Failure(ArgumentError("handler"));
      }
      r := StartReceiving(t, code, target, filter, context, ambient, id);
    }

    /** StopReceiving(listener): the bus's Unsubscribe(listener); a null listener throws first. */
    method StopReceiving(listener: object?) returns (r: Outcome<Error>)
      modifies bus
      ensures listener == null ==> r == Fail(NullReferenceError) && bus.subscriptions == old(bus.subscriptions)
      ensures listener != null ==> r == Pass && bus.subscriptions == Where(old(bus.subscriptions), NotOwnedBy(listener))
    {
      if listener == null {
        return Fail(NullReferenceError);
      }
      bus.UnsubscribeOwner(listener);
      r := Pass;
    }

    /** `StopReceiving<T>(listener)`: the bus's Unsubscribe(listener, T); a null listener throws first. */
    method StopReceivingType(t: EventType, listener: object?) returns (r: Outcome<Error>)
      modifies bus
      ensures listener == null ==> r == Fail(NullReferenceError) && bus.subscriptions == old(bus.subscriptions)
      ensures listener != null ==>
        r == Pass && bus.subscriptions == Where(old(bus.subscriptions), NotOwnedByFor(listener, t))
    {
      if listener == null {
        return Fail(NullReferenceError);
      }
      bus.UnsubscribeOwnerType(listener, t);
      r := Pass;
    }
  }

  /**
    What a wait's handler does with a delivered message, seen as an event (null when it is not
    one): with no filter, or one that accepts, it attempts to resolve the task to that event; a
    rejecting filter leaves the task alone; a throwing filter leaves it alone too, and its
    exception escapes the callback.
   */
  lemma WaiterAttempts(task: CompletionCell, filter: Option<UserFilter<Option<Message>>>, m: Message)
    ensures var cb := Deliver(Waiter(task, filter), m);
      var event := AsEvent(m);
      && (filter.None? || (!filter.value.throwsOn(event) && filter.value.accepts(event)) ==>
            Attempts([cb], task) == [event] && !Throws(EffectOf(cb)))
      && (filter.Some? && !filter.value.throwsOn(event) && !filter.value.accepts(event) ==>
            Attempts([cb], task) == [] && !Throws(EffectOf(cb)))
      && (filter.Some? && filter.value.throwsOn(event) ==>
            Attempts([cb], task) == [] && Throws(EffectOf(cb)) && Thrown(EffectOf(cb)) == CallbackError(filter.value.token))
  {
    var cb := Deliver(Waiter(task, filter), m);
    assert [cb][..0] == [];
  }
}

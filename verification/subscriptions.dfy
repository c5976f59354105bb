/**
  MessageSubscription: what a listener is interested in (a list of accepted types), who owns
  the interest, the handler that reacts to a message, the context the handler runs on, and
  whether the bus drops the subscription after its first match.
 */
module Subscriptions {
  import opened Wrappers
  import opened Model
  import opened Types
  import opened Callbacks
  import opened SyncContext

  /**
    `types.Any(type => t == type || type.IsAssignableFrom(t))`: some accepted type is `t`
    itself or one of its supertypes. (The equality test is subsumed by assignability.)
   */
  function Accepts(types: seq<EventType>, t: EventType): (r: bool)
    ensures r <==> exists i :: 0 <= i < |types| && IsAssignableFrom(types[i], t)
  {
    if types == [] then false
    else
      t == types[0] || IsAssignableFrom(types[0], t) || Accepts(types[1..], t)
  }

  /** A subscription accepts each of its own declared types. */
  lemma AcceptsOwnTypes(types: seq<EventType>, i: nat)
    requires i < |types|
    ensures Accepts(types, types[i])
  {
    AssignableReflexive(types[i]);
  }

  /** Acceptance is closed downwards: accepting a type means accepting every type derived from it. */
  lemma AcceptsDerived(types: seq<EventType>, t: EventType, derived: EventType)
    requires Accepts(types, t) && IsAssignableFrom(t, derived)
    ensures Accepts(types, derived)
  {
    var i :| 0 <= i < |types| && IsAssignableFrom(types[i], t);
    AssignableTransitive(types[i], t, derived);
  }

  /** Every listed type implements IEvent, as the `where T : IEvent` constraints of the typed helpers demand. */
  predicate EventTypes(types: seq<EventType>) {
    forall i :: 0 <= i < |types| ==> IsAssignableFrom(IEvent, types[i])
  }

  /** A message accepted by a list of event types is an event: `message as IEvent` is the message itself. */
  lemma AcceptedByEventWaitIsEvent(types: seq<EventType>, m: Message)
    requires EventTypes(types) && Accepts(types, m.runtimeType)
    ensures AsEvent(m) == Some(m)
  {
    var i :| 0 <= i < |types| && IsAssignableFrom(types[i], m.runtimeType);
    AssignableTransitive(IEvent, types[i], m.runtimeType);
  }

  /** Every message the list accepts is seen by `as IEvent` as itself, never as null. */
  ghost predicate SeesEventsItself(types: seq<EventType>) {
    forall m: Message :: Accepts(types, m.runtimeType) ==> AsEvent(m) == Some(m)
  }

  /** A list of event types sees every message it accepts as the event itself. */
  lemma EventTypesSeeEventsItself(types: seq<EventType>)
    requires EventTypes(types)
    ensures SeesEventsItself(types)
  {
    forall m: Message | Accepts(types, m.runtimeType)
      ensures AsEvent(m) == Some(m)
    {
      AcceptedByEventWaitIsEvent(types, m);
    }
  }

  class MessageSubscription {
    /** The subscription's identifier (a Guid, never compared by the library). */
    const id: nat
    /** The Action<object> run for each delivered message. */
    const handler: Handler
    /** The owner, compared by reference when unsubscribing by owner. */
    const owner: object?
    /** The unsubscribe policy; the only property with a public setter. */
    var policy: UnsubscribePolicy
    /** The context the handler is posted to. */
    const context: SingleThreadSynchronizationContext
    /** The expected message types, in the order given. */
    const messagesTypes: seq<EventType>

    /** The constructor body once the context has been resolved. */
    constructor (id: nat, handler: Handler, owner: object?, policy: UnsubscribePolicy,
                 context: SingleThreadSynchronizationContext, messagesTypes: seq<EventType>)
      ensures this.id == id && this.handler == handler && this.owner == owner
      ensures this.policy == policy && this.context == context && this.messagesTypes == messagesTypes
    {
      this.id := id;
      this.handler := handler;
      this.owner := owner;
      this.policy := policy;
      this.context := context;
      this.messagesTypes := messagesTypes;
    }

    /**
      `new MessageSubscription(...)`: the explicit context wins over the ambient current one;
      with neither, construction throws ArgumentNullException("synchronizationContext").
     */
    static method New(id: nat, handler: Handler, owner: object?, policy: UnsubscribePolicy,
                      synchronizationContext: SingleThreadSynchronizationContext?,
                      ambient: SingleThreadSynchronizationContext?,
                      messagesTypes: seq<EventType>)
      returns (r: Result<MessageSubscription, Error>)
      ensures r.Failure? <==> synchronizationContext == null && ambient == null
      ensures r.Failure? ==> r.error == ArgumentNullError("synchronizationContext")
      ensures r.Success? ==> var s := r.value;
        && fresh(s)
        && s.id == id && s.handler == handler && s.owner == owner && s.policy == policy
        && s.messagesTypes == messagesTypes
        && s.context == if synchronizationContext != null then synchronizationContext else ambient
    {
      var context := if synchronizationContext != null then synchronizationContext else ambient;
      if context == null {
        return Failure(ArgumentNullError("synchronizationContext"));
      }
      var s := new MessageSubscription(id, handler, owner, policy, context, messagesTypes);
      r := Success(s);
    }

    /** The `UnsubscribePolicy` setter. */
    method SetPolicy(p: UnsubscribePolicy)
      modifies this
      ensures policy == p
    {
      policy := p;
    }

    /** Contains: whether this subscription accepts messages of type `t`. */
    predicate Contains(t: EventType)
      ensures Contains(t) <==> exists i :: 0 <= i < |messagesTypes| && IsAssignableFrom(messagesTypes[i], t)
    {
      Accepts(messagesTypes, t)
    }

    /**
      ProccessMessage: does not run the handler; posts one callback delivering `m` to it onto
      the subscription's context. Nothing else changes.
     */
    method ProccessMessage(m: Message)
      modifies context
      ensures context.operations ==
        old(context.operations) + (if context.addingCompleted then [] else [Deliver(handler, m)])
      ensures context.addingCompleted == old(context.addingCompleted)
      ensures context.observers == old(context.observers)
    {
      var _ := context.Post(Some(Deliver(handler, m)));
    }

    /** `Create<T>`: a subscription accepting exactly `[t]`. */
    static method Create1(t: EventType, handler: Handler, ambient: SingleThreadSynchronizationContext?, id: nat,
                          owner: object? := null, policy: UnsubscribePolicy := Manual,
                          synchronizationContext: SingleThreadSynchronizationContext? := null)
      returns (r: Result<MessageSubscription, Error>)
      ensures r.Failure? <==> synchronizationContext == null && ambient == null
      ensures r.Failure? ==> r.error == ArgumentNullError("synchronizationContext")
      ensures r.Success? ==> var s := r.value;
        && fresh(s) && s.messagesTypes == [t]
        && s.id == id && s.handler == handler && s.owner == owner && s.policy == policy
        && s.context == if synchronizationContext != null then synchronizationContext else ambient
    {
      r := New(id, handler, owner, policy, synchronizationContext, ambient, [t]);
    }

    /** `Create<T1, T2>`: a subscription accepting exactly `[t1, t2]`. */
    static method Create2(t1: EventType, t2: EventType, handler: Handler,
                          ambient: SingleThreadSynchronizationContext?, id: nat,
                          owner: object? := null, policy: UnsubscribePolicy := Manual,
                          synchronizationContext: SingleThreadSynchronizationContext? := null)
      returns (r: Result<MessageSubscription, Error>)
      ensures r.Failure? <==> synchronizationContext == null && ambient == null
      ensures r.Failure? ==> r.error == ArgumentNullError("synchronizationContext")
      ensures r.Success? ==> var s := r.value;
        && fresh(s) && s.messagesTypes == [t1, t2]
        && s.id == id && s.handler == handler && s.owner == owner && s.policy == policy
        && s.context == if synchronizationContext != null then synchronizationContext else ambient
    {
      r := New(id, handler, owner, policy, synchronizationContext, ambient, [t1, t2]);
    }

    /** `Create<T1, T2, T3>`: a subscription accepting exactly `[t1, t2, t3]`. */
    static method Create3(t1: EventType, t2: EventType, t3: EventType, handler: Handler,
                          ambient: SingleThreadSynchronizationContext?, id: nat,
                          owner: object? := null, policy: UnsubscribePolicy := Manual,
                          synchronizationContext: SingleThreadSynchronizationContext? := null)
      returns (r: Result<MessageSubscription, Error>)
      ensures r.Failure? <==> synchronizationContext == null && ambient == null
      ensures r.Failure? ==> r.error == ArgumentNullError("synchronizationContext")
      ensures r.Success? ==> var s := r.value;
        && fresh(s) && s.messagesTypes == [t1, t2, t3]
        && s.id == id && s.handler == handler && s.owner == owner && s.policy == policy
        && s.context == if synchronizationContext != null then synchronizationContext else ambient
    {
      r := New(id, handler, owner, policy, synchronizationContext, ambient, [t1, t2, t3]);
    }
  }
}

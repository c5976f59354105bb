/**
  MessageBus: the registry of subscriptions, kept in subscription order. Send matches a message
  against the registry, posts it to every matching subscription's context and then drops the
  matching subscriptions whose policy is Auto.
 */
module Bus {
  import opened Wrappers
  import opened Model
  import opened Types
  import opened Seqs
  import opened Callbacks
  import opened SyncContext
  import opened Subscriptions

  /** `s => s.MessagesTypes.Any(...)` for the runtime type `t`. */
  function AcceptsType(t: EventType): MessageSubscription -> bool {
    (s: MessageSubscription) => s.Contains(t)
  }

  /** `s => !collection.Contains(s)`: the predicate RemoveAll(collection.Contains) keeps. */
  function NotIn(collection: seq<MessageSubscription>): MessageSubscription -> bool {
    (s: MessageSubscription) => s !in collection
  }

  /** The predicate RemoveAll(handler => handler.Owner == owner) keeps. */
  function NotOwnedBy(owner: object?): MessageSubscription -> bool {
    (s: MessageSubscription) => s.owner != owner
  }

  /** The predicate RemoveAll(handler => handler.Owner == owner && handler.Contains(t)) keeps. */
  function NotOwnedByFor(owner: object?, t: EventType): MessageSubscription -> bool {
    (s: MessageSubscription) => !(s.owner == owner && s.Contains(t))
  }

  /** The predicate selecting the subscriptions that post to context `c`. */
  function OnContext(c: SingleThreadSynchronizationContext): MessageSubscription -> bool {
    (s: MessageSubscription) => s.context == c
  }

  /** The contexts the subscriptions in `subs` post to. */
  function Contexts(subs: seq<MessageSubscription>): set<SingleThreadSynchronizationContext> {
    set s | s in subs :: s.context
  }

  /** The snapshot Send takes: the subscriptions accepting `t`, in registry order. */
  function Matching(subs: seq<MessageSubscription>, t: EventType): (r: seq<MessageSubscription>)
    ensures forall s :: s in r ==> s in subs && s.Contains(t)
    ensures forall s :: s in subs && s.Contains(t) ==> s in r
    ensures forall s :: s in subs ==> multiset(r)[s] == if s.Contains(t) then multiset(subs)[s] else 0
  {
    WhereCount(subs, AcceptsType(t));
    Where(subs, AcceptsType(t))
  }

  /** The snapshot keeps registry order. */
  lemma MatchingKeepsOrder(subs: seq<MessageSubscription>, t: EventType)
    ensures IsSubsequence(Matching(subs, t), subs)
  {
    WhereIsSubsequence(subs, AcceptsType(t));
  }

  /** `Where(s => s.UnsubscribePolicy == Auto)`: the Auto subscriptions of `subs`, in order. */
  function AutoOf(subs: seq<MessageSubscription>): (r: seq<MessageSubscription>)
    reads subs
    ensures forall s :: s in r ==> s in subs && s.policy == Auto
    ensures forall s :: s in subs && s.policy == Auto ==> s in r
  {
    if subs == [] then []
    else if subs[0].policy == Auto then [subs[0]] + AutoOf(subs[1..])
    else AutoOf(subs[1..])
  }

  /**
    The registry after sending a message of type `t`: exactly the Auto subscriptions accepting
    `t` are gone, every other entry keeps all its occurrences.
   */
  function AfterSend(subs: seq<MessageSubscription>, t: EventType): (r: seq<MessageSubscription>)
    reads subs
    ensures forall s :: s in r ==> s in subs
    ensures multiset(r) <= multiset(subs)
    ensures forall s :: s in subs ==>
      multiset(r)[s] == if s.policy == Auto && s.Contains(t) then 0 else multiset(subs)[s]
  {
    var toRemove := AutoOf(Matching(subs, t));
    WhereCount(subs, NotIn(toRemove));
    Where(subs, NotIn(toRemove))
  }

  /** Sending keeps the order of the entries that stay. */
  lemma AfterSendKeepsOrder(subs: seq<MessageSubscription>, t: EventType)
    ensures IsSubsequence(AfterSend(subs, t), subs)
  {
    WhereIsSubsequence(subs, NotIn(AutoOf(Matching(subs, t))));
  }

  /** What the subscriptions in `ms` post for `m`, one callback each, in order. */
  function Deliveries(ms: seq<MessageSubscription>, m: Message): (r: seq<Callback>)
    ensures |r| == |ms|
    ensures forall i :: 0 <= i < |ms| ==> r[i] == Deliver(ms[i].handler, m)
  {
    if ms == [] then [] else Deliveries(ms[..|ms| - 1], m) + [Deliver(ms[|ms| - 1].handler, m)]
  }

  /** The callbacks that posting `m` through each of `ms` in turn puts on context `c`. */
  function Routed(ms: seq<MessageSubscription>, c: SingleThreadSynchronizationContext, m: Message): seq<Callback> {
    if ms == [] then []
    else
      var s := ms[|ms| - 1];
      Routed(ms[..|ms| - 1], c, m) + (if s.context == c then [Deliver(s.handler, m)] else [])
  }

  /** One more subscription of `ms` adds its own delivery to its own context only. */
  lemma RoutedStep(ms: seq<MessageSubscription>, i: nat, m: Message)
    requires i < |ms|
    ensures forall c ::
      Routed(ms[..i + 1], c, m) ==
      Routed(ms[..i], c, m) + (if ms[i].context == c then [Deliver(ms[i].handler, m)] else [])
  {
    assert ms[..i + 1][..i] == ms[..i];
  }

  /** A context none of `ms` posts to receives nothing. */
  lemma {:induction false} RoutedElsewhere(ms: seq<MessageSubscription>, c: SingleThreadSynchronizationContext, m: Message)
    requires c !in Contexts(ms)
    ensures Routed(ms, c, m) == []
  {
    if ms != [] {
      assert ms[|ms| - 1] in ms;
      assert Contexts(ms[..|ms| - 1]) <= Contexts(ms) by {
        forall s | s in ms[..|ms| - 1] ensures s in ms {
        }
      }
      RoutedElsewhere(ms[..|ms| - 1], c, m);
    }
  }

  /** What reaches `c` is one callback per subscription of `ms` on `c`, in the order of `ms`. */
  lemma {:induction false} RoutedIsDeliveries(ms: seq<MessageSubscription>, c: SingleThreadSynchronizationContext, m: Message)
    ensures Routed(ms, c, m) == Deliveries(Where(ms, OnContext(c)), m)
  {
    if ms != [] {
      var init := ms[..|ms| - 1];
      var s := ms[|ms| - 1];
      RoutedIsDeliveries(init, c, m);
      assert ms == init + [s];
      WhereSnoc(init, s, OnContext(c));
      if s.context == c {
        var before := Where(init, OnContext(c));
        assert (before + [s])[..|before|] == before;
      }
    }
  }

  /**
    The callbacks Send posts to context `c`: one for each occurrence of a matching subscription
    on `c` in the registry, none for the others.
   */
  lemma DeliveredOncePerMatch(subs: seq<MessageSubscription>, t: EventType, c: SingleThreadSynchronizationContext)
    ensures forall s :: s in subs ==>
      multiset(Where<MessageSubscription>(Matching(subs, t), OnContext(c)))[s] ==
        if s.Contains(t) && s.context == c then multiset(subs)[s] else 0
  {
    var ms: seq<MessageSubscription> := Matching(subs, t);
    WhereCount<MessageSubscription>(ms, OnContext(c));
    forall s: MessageSubscription | s in subs
      ensures multiset(Where<MessageSubscription>(ms, OnContext(c)))[s] == if s.Contains(t) && s.context == c then multiset(subs)[s] else 0
    {
      if s !in ms {
        assert multiset(ms)[s] == 0;
        assert multiset(Where<MessageSubscription>(ms, OnContext(c))) <= multiset(ms);
      }
    }
  }

  /**
    The registry seen by a sequence of sends of messages of types `ts`, with no subscription
    added in between: how often `s` is delivered in total.
   */
  function TotalDeliveries(subs: seq<MessageSubscription>, ts: seq<EventType>, s: MessageSubscription): nat
    reads subs
    decreases |ts|
  {
    if ts == [] then 0
    else
      var after := Next(subs, ts[0]);
      multiset(Matching(subs, ts[0]))[s] + TotalDeliveries(after, ts[1..], s)
  }

  /** The registry one send further on, seen only as drawn from the registry before it. */
  function Next(subs: seq<MessageSubscription>, t: EventType): (r: seq<MessageSubscription>)
    reads subs
    ensures forall x :: x in r ==> x in subs
  {
    AfterSend(subs, t)
  }

  /** A subscription no longer in the registry is never delivered again. */
  lemma {:induction false} GoneIsNeverDelivered(subs: seq<MessageSubscription>, ts: seq<EventType>, s: MessageSubscription)
    requires s !in subs
    ensures TotalDeliveries(subs, ts, s) == 0
    decreases |ts|
  {
    if ts != [] {
      var after: seq<MessageSubscription> := AfterSend(subs, ts[0]);
      assert multiset(Matching(subs, ts[0]))[s] == 0 by {
        assert s !in Matching(subs, ts[0]);
      }
      assert s !in after by {
        assert multiset(after)[s] <= multiset(subs)[s];
      }
      GoneIsNeverDelivered(after, ts[1..], s);
    }
  }

  /**
    An Auto subscription registered once is delivered at most once over any sequence of sends:
    its first match removes it.
   */
  lemma {:induction false} AutoDeliveredAtMostOnce(subs: seq<MessageSubscription>, ts: seq<EventType>, s: MessageSubscription)
    requires s.policy == Auto && multiset(subs)[s] <= 1
    ensures TotalDeliveries(subs, ts, s) <= 1
    decreases |ts|
  {
    if ts != [] {
      var after: seq<MessageSubscription> := AfterSend(subs, ts[0]);
      if s in subs && s.Contains(ts[0]) {
        assert multiset(after)[s] == 0;
        GoneIsNeverDelivered(after, ts[1..], s);
      } else if s in subs {
        assert multiset(Matching(subs, ts[0]))[s] == 0;
        AutoDeliveredAtMostOnce(after, ts[1..], s);
      } else {
        GoneIsNeverDelivered(subs, ts, s);
      }
    }
  }

  /** How many of the sends `ts` carry a message that `s` accepts. */
  function CountAccepted(s: MessageSubscription, ts: seq<EventType>): (r: nat)
    ensures r <= |ts|
  {
    if ts == [] then 0 else (if s.Contains(ts[0]) then 1 else 0) + CountAccepted(s, ts[1..])
  }

  /**
    A Manual subscription registered once is delivered on every send whose message it accepts,
    and on no other.
   */
  lemma {:induction false} ManualDeliveredEveryTime(subs: seq<MessageSubscription>, ts: seq<EventType>, s: MessageSubscription)
    requires s.policy == Manual && multiset(subs)[s] == 1
    ensures TotalDeliveries(subs, ts, s) == CountAccepted(s, ts)
    decreases |ts|
  {
    if ts != [] {
      var after: seq<MessageSubscription> := AfterSend(subs, ts[0]);
      assert s in subs;
      assert multiset(after)[s] == 1;
      assert multiset(Matching(subs, ts[0]))[s] == if s.Contains(ts[0]) then 1 else 0;
      ManualDeliveredEveryTime(after, ts[1..], s);
    }
  }

  /** `Subscribe(s)` followed by `Unsubscribe(s)` gives back the same subscriptions, and the same list when `s` was new. */
  lemma SubscribeUnsubscribe(subs: seq<MessageSubscription>, s: MessageSubscription)
    ensures multiset(RemoveFirst(subs + [s], s)) == multiset(subs)
    ensures s !in subs ==> RemoveFirst(subs + [s], s) == subs
  {
    assert multiset(RemoveFirst(subs + [s], s)) == multiset(subs) by {
      RemoveFirstCount(subs + [s], s);
      assert multiset(subs + [s]) == multiset(subs) + multiset{s};
    }
    if s !in subs {
      RemoveFirstAppended(subs, s);
    }
  }

  class MessageBus {
    /** The registered subscriptions, in subscription order; duplicates are allowed. */
    var subscriptions: seq<MessageSubscription>

    constructor ()
      ensures subscriptions == []
    {
      subscriptions := [];
    }

    /** GetSubscriptions: a copy of the registry, in order. */
    method GetSubscriptions() returns (r: seq<MessageSubscription>)
      ensures r == subscriptions
    {
      r := subscriptions;
    }

    /** Subscribe: appends at the end; the existing entries stay as they are. No duplicate check. */
    method Subscribe(s: MessageSubscription)
      modifies this
      ensures subscriptions == old(subscriptions) + [s]
    {
      subscriptions := subscriptions + [s];
    }

    /**
      `Unsubscribe(subscription)`: removes the first occurrence only; a non-member is a no-op.
      A null argument removes nothing (the registry holds no null) and then throws
      NullReferenceException when the trace line reads its Id.
     */
    method Unsubscribe(s: MessageSubscription?) returns (r: Outcome<Error>)
      modifies this
      ensures s == null ==> r == Fail(NullReferenceError) && subscriptions == old(subscriptions)
      ensures s != null ==> r == Pass && subscriptions == RemoveFirst<MessageSubscription>(old(subscriptions), s)
      ensures s != null ==> multiset(subscriptions) == multiset(old(subscriptions)) - multiset{s}
    {
      if s == null {
        return Fail(NullReferenceError);
      }
      var target: MessageSubscription := s;
      RemoveFirstCount(subscriptions, target);
      subscriptions := RemoveFirst(subscriptions, target);
      r := Pass;
    }

    /**
      `Unsubscribe(collection)`: removes every occurrence of every member of `collection`.
      For a null collection the predicate `collection.Contains` throws
      ArgumentNullException("source") the first time RemoveAll calls it, before anything is
      removed; an empty registry never calls it.
     */
    method UnsubscribeAll(collection: Option<seq<MessageSubscription>>) returns (r: Outcome<Error>)
      modifies this
      ensures collection.None? ==> subscriptions == old(subscriptions)
      ensures collection.None? ==> r == if old(subscriptions) == [] then Pass else Fail(ArgumentNullError("source"))
      ensures collection.Some? ==> r == Pass && subscriptions == Where(old(subscriptions), NotIn(collection.value))
      ensures collection.Some? ==> forall s :: s in old(subscriptions) ==>
        multiset(subscriptions)[s] == if s in collection.value then 0 else multiset(old(subscriptions))[s]
      ensures collection.Some? ==> IsSubsequence(subscriptions, old(subscriptions))
    {
      if collection.None? {
        return if subscriptions == [] then Pass else Fail(ArgumentNullError("source"));
      }
      var c := collection.value;
      WhereCount(subscriptions, NotIn(c));
      WhereIsSubsequence(subscriptions, NotIn(c));
      subscriptions := Where(subscriptions, NotIn(c));
      r := Pass;
    }

    /** `Unsubscribe(owner)`: removes exactly the entries owned by `owner`, keeping the others in order. */
    method UnsubscribeOwner(owner: object?)
      modifies this
      ensures subscriptions == Where(old(subscriptions), NotOwnedBy(owner))
      ensures forall s :: s in old(subscriptions) ==>
        multiset(subscriptions)[s] == if s.owner == owner then 0 else multiset(old(subscriptions))[s]
      ensures IsSubsequence(subscriptions, old(subscriptions))
    {
      WhereCount(subscriptions, NotOwnedBy(owner));
      WhereIsSubsequence(subscriptions, NotOwnedBy(owner));
      subscriptions := Where(subscriptions, NotOwnedBy(owner));
    }

    /** `Unsubscribe(owner, type)`: removes exactly the entries owned by `owner` that accept `t`. */
    method UnsubscribeOwnerType(owner: object?, t: EventType)
      modifies this
      ensures subscriptions == Where(old(subscriptions), NotOwnedByFor(owner, t))
      ensures forall s :: s in old(subscriptions) ==>
        multiset(subscriptions)[s] ==
          if s.owner == owner && s.Contains(t) then 0 else multiset(old(subscriptions))[s]
      ensures IsSubsequence(subscriptions, old(subscriptions))
    {
      WhereCount(subscriptions, NotOwnedByFor(owner, t));
      WhereIsSubsequence(subscriptions, NotOwnedByFor(owner, t));
      subscriptions := Where(subscriptions, NotOwnedByFor(owner, t));
    }

    /** UnsubscribeAutoSubscriptions: removes the Auto members of `matched`, if there are any. */
    method UnsubscribeAutoSubscriptions(matched: seq<MessageSubscription>)
      modifies this
      ensures subscriptions == Where(old(subscriptions), NotIn(AutoOf(matched)))
    {
      var toRemove := AutoOf(matched);
      if toRemove == [] {
        WhereKeepsAll(subscriptions, NotIn(toRemove));
        return;
      }
      subscriptions := Where(subscriptions, NotIn(toRemove));
    }

    /**
      Send: takes the snapshot of matching subscriptions, posts the message once to each of
      them in registry order, then removes the Auto ones. Returns the snapshot.
     */
    method Send(m: Message) returns (delivered: seq<MessageSubscription>)
      modifies this, Contexts(subscriptions)
      ensures delivered == Matching(old(subscriptions), m.runtimeType)
      ensures subscriptions == AfterSend(old(subscriptions), m.runtimeType)
      ensures forall c :: c in old(Contexts(subscriptions)) ==>
        c.addingCompleted == old(c.addingCompleted) && c.observers == old(c.observers)
      ensures forall c :: c in old(Contexts(subscriptions)) && !c.addingCompleted ==>
        c.operations == old(c.operations) + Routed(delivered, c, m)
      ensures forall c :: c in old(Contexts(subscriptions)) && c.addingCompleted ==>
        c.operations == old(c.operations)
    {
      var t := m.runtimeType;
      delivered := Where(subscriptions, AcceptsType(t));
      assert delivered == Matching(subscriptions, t);
      assert Contexts(delivered) <= Contexts(subscriptions);
      ProcessAll(delivered, m);
      forall c | c in Contexts(subscriptions) && c !in Contexts(delivered)
        ensures Routed(delivered, c, m) == []
      {
        RoutedElsewhere(delivered, c, m);
      }
      UnsubscribeAutoSubscriptions(delivered);
    }
  }

  /**
    The delivery loop of Send: `ProccessMessage(m)` on each subscription of `ms` in turn. Each
    context receives, in order, one callback per subscription of `ms` posting to it.
   */
  method ProcessAll(ms: seq<MessageSubscription>, m: Message)
    modifies Contexts(ms)
    ensures forall c :: c in Contexts(ms) ==>
      c.addingCompleted == old(c.addingCompleted) && c.observers == old(c.observers)
    ensures forall c :: c in Contexts(ms) ==>
      c.operations == old(c.operations) + (if c.addingCompleted then [] else Routed(ms, c, m))
  {
    ghost var init := map c | c in Contexts(ms) :: (c.operations, c.addingCompleted, c.observers);
    var i := 0;
    while i < |ms|
      invariant 0 <= i <= |ms|
      invariant Kept(init, ms[..i], m)
    {
      assert ms[i] in ms;
      ProcessOne(init, ms, i, m);
      assert Kept(init, ms[..i + 1], m);
      i := i + 1;
    }
    assert ms[..i] == ms;
  }

  /**
    The loop invariant of ProcessAll: each context keeps its flags and has received, after what
    it held at the start, the callbacks routed to it by the subscriptions `done`.
   */
  ghost predicate Kept(init: map<SingleThreadSynchronizationContext, (seq<Callback>, bool, seq<nat>)>,
                       done: seq<MessageSubscription>, m: Message)
    reads init.Keys
  {
    forall c :: c in init ==>
      && c.addingCompleted == init[c].1 && c.observers == init[c].2
      && c.operations == init[c].0 + (if c.addingCompleted then [] else Routed(done, c, m))
  }

  /** One iteration of the delivery loop: the `i`-th subscription posts `m` to its context. */
  method ProcessOne(ghost init: map<SingleThreadSynchronizationContext, (seq<Callback>, bool, seq<nat>)>,
                    ms: seq<MessageSubscription>, i: nat, m: Message)
    requires i < |ms| && ms[i].context in init
    requires Kept(init, ms[..i], m)
    modifies ms[i].context
    ensures Kept(init, ms[..i + 1], m)
  {
    var s := ms[i];
    s.ProccessMessage(m);
    RoutedStep(ms, i, m);
    forall c | c in init
      ensures c.addingCompleted == init[c].1 && c.observers == init[c].2
      ensures c.operations == init[c].0 + (if c.addingCompleted then [] else Routed(ms[..i + 1], c, m))
    {
      if c != s.context {
        assert unchanged(c);
      }
    }
  }
}

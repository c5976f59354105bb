/**
  Runtime types of messages and the polymorphic assignability test the library relies on.

  A type is named and lists its direct supertypes (its base class and the interfaces it
  implements); since datatype values are finite, no type can be its own supertype, as in .NET.
 */
module Types {
  import opened Wrappers

  /** A runtime type: a name and its direct supertypes. */
  datatype EventType = EventType(name: nat, bases: seq<EventType>)

  /** A message put on the bus: its runtime type and a payload that tells messages apart. */
  datatype Message = Message(runtimeType: EventType, payload: nat)

  /** The marker interface every event implements (IEvent). */
  const IEvent: EventType := EventType(0, [])

  /** The length of the longest chain of direct supertypes that starts at `t`. */
  function Height(t: EventType): (h: nat)
    ensures h >= 1
    ensures forall i :: 0 <= i < |t.bases| ==> Height(t.bases[i]) < h
    decreases t, 1
  {
    1 + MaxHeight(t.bases)
  }

  /** The greatest height in `ts`, 0 for none. */
  function MaxHeight(ts: seq<EventType>): (h: nat)
    ensures forall i :: 0 <= i < |ts| ==> Height(ts[i]) <= h
    decreases ts, 0
  {
    if ts == [] then 0
    else
      var rest := MaxHeight(ts[1..]);
      assert forall i :: 1 <= i < |ts| ==> ts[i] == ts[1..][i - 1];
      if Height(ts[0]) > rest then Height(ts[0]) else rest
  }

  /**
    `target.IsAssignableFrom(source)`: `source` is `target` or derives from it through its
    chain of direct supertypes. A proper supertype has a strictly shorter chain above it, so no two
    distinct types are assignable from each other.
   */
  predicate IsAssignableFrom(target: EventType, source: EventType)
    ensures IsAssignableFrom(target, source) ==>
      source == target || Height(target) < Height(source)
    decreases source
  {
    source == target ||
    exists i :: 0 <= i < |source.bases| && IsAssignableFrom(target, source.bases[i])
  }

  /** Assignability runs one way only: two types assignable from each other are the same type. */
  lemma AssignableAntisymmetric(a: EventType, b: EventType)
    requires IsAssignableFrom(a, b) && IsAssignableFrom(b, a)
    ensures a == b
  {
  }

  /** Every type is assignable from itself. */
  lemma AssignableReflexive(t: EventType)
    ensures IsAssignableFrom(t, t)
  {
  }

  /** Assignability composes along a chain of derivations. */
  lemma {:induction false} AssignableTransitive(a: EventType, b: EventType, c: EventType)
    requires IsAssignableFrom(a, b) && IsAssignableFrom(b, c)
    ensures IsAssignableFrom(a, c)
    decreases c
  {
    if c != b {
      var i :| 0 <= i < |c.bases| && IsAssignableFrom(b, c.bases[i]);
      AssignableTransitive(a, b, c.bases[i]);
    }
  }

  /** The message is an event: its runtime type implements IEvent. */
  predicate IsEvent(m: Message) {
    IsAssignableFrom(IEvent, m.runtimeType)
  }

  /** `message as IEvent`: the message itself when it is an event, null otherwise. */
  function AsEvent(m: Message): (r: Option<Message>)
    ensures r.Some? <==> IsEvent(m)
    ensures r.Some? ==> r.value == m
  {
    if IsEvent(m) then Some(m) else None
  }
}

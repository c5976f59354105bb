/**
  The delegates that travel through a synchronization context, as data: what a posted callback
  is and what running it does. Code supplied by users of the library is opaque. A handler is
  seen only through a token (its observable run), the callbacks it posts back onto the context
  running it, and whether it throws; a filter through its verdict on each input and the inputs
  on which it throws. A delegate the user passed as null is absent.
 */
module Callbacks {
  import opened Wrappers
  import opened Model
  import opened Types
  import opened Tasks

  /** A user-supplied delegate body: observed as `token`; posts `posts`, then throws if `throws`. */
  datatype UserCode = UserCode(token: nat, posts: seq<Callback>, throws: bool)

  /**
    A user-supplied `Func<A, bool>`: it throws an exception with `token` on the inputs
    `throwsOn` holds for, and otherwise returns `accepts`.
   */
  datatype UserFilter<-A> = UserFilter(token: nat, accepts: A -> bool, throwsOn: A -> bool)

  /** The Action<object> a subscription holds. */
  datatype Handler =
    /** a handler passed to the subscription as it is (None: a null delegate) */
    | Plain(code: Option<UserCode>)
    /** the closure built by WaitFor: filter the event, then TrySetResult on the task */
    | Waiter(task: CompletionCell, eventFilter: Option<UserFilter<Option<Message>>>)
    /** the closure built by StartReceiving: filter the message, then call the user handler */
    | Receiver(code: Option<UserCode>, filter: Option<UserFilter<Message>>)

  /** A SendOrPostCallback with its state, as it sits in a context's queue. */
  datatype Callback =
    /** `o => messageHandler(message)`, posted by ProccessMessage */
    | Deliver(handler: Handler, message: Message)
    /** any other delegate posted to the context */
    | Posted(code: UserCode)

  /** What running one callback does. */
  datatype Effect =
    | RunsCode(code: UserCode)                             // user code runs
    | TriesSet(task: CompletionCell, value: Option<Message>) // TrySetResult(value) on task
    | Ignored                                              // a filter rejected the message
    | Faults(error: Error)                                 // a filter threw, or a null delegate was called

  /** Calling a user delegate that may be null. */
  function Invoke(code: Option<UserCode>): Effect {
    if code.Some? then RunsCode(code.value) else Faults(NullReferenceError)
  }

  /** The effect of running `cb`. */
  function EffectOf(cb: Callback): (r: Effect)
    ensures r.TriesSet? ==>
      cb.Deliver? && cb.handler.Waiter? && r.task == cb.handler.task && r.value == AsEvent(cb.message)
    ensures cb.Deliver? && cb.handler.Waiter? ==> !r.RunsCode?
    ensures r.RunsCode? ==> (cb.Posted? && r.code == cb.code) || (cb.Deliver? && !cb.handler.Waiter? && cb.handler.code == Some(r.code))
    ensures r.Faults? ==> cb.Deliver?
    ensures r.Faults? && r.error == NullReferenceError ==> !cb.handler.Waiter? && cb.handler.code.None?
  {
    match cb
    case Posted(code) => RunsCode(code)
    case Deliver(Plain(code), _) => Invoke(code)
    case Deliver(Receiver(code, filter), m) =>
      if filter.Some? && filter.value.throwsOn(m) then Faults(CallbackError(filter.value.token))
      else if filter.None? || filter.value.accepts(m) then Invoke(code)
      else Ignored
    case Deliver(Waiter(task, filter), m) =>
      var event := AsEvent(m);
      if filter.Some? && filter.value.throwsOn(event) then Faults(CallbackError(filter.value.token))
      else if filter.Some? && !filter.value.accepts(event) then Ignored
      else TriesSet(task, event)
  }

  /** The callbacks an effect posts back onto the context running it. */
  function PostsOf(e: Effect): seq<Callback> {
    if e.RunsCode? then e.code.posts else []
  }

  /** Whether an effect ends by throwing. */
  predicate Throws(e: Effect) {
    (e.RunsCode? && e.code.throws) || e.Faults?
  }

  /** The exception a throwing effect ends with. */
  function Thrown(e: Effect): Error
    requires Throws(e)
  {
    if e.Faults? then e.error else CallbackError(e.code.token)
  }

  /** The user handler a subscription's handler calls when it receives `m`, if any. */
  function InvokedBy(h: Handler, m: Message): (r: Option<nat>)
  {
    var e := EffectOf(Deliver(h, m));
    if e.RunsCode? then Some(e.code.token) else None
  }

  /**
    StartReceiving's closure calls the user handler exactly when there is no filter or the
    filter accepts without throwing; calling a null handler throws NullReferenceException.
   */
  lemma ReceiverInvokesIffAccepted(code: UserCode, filter: Option<UserFilter<Message>>, m: Message)
    ensures var passes := filter.None? || (!filter.value.throwsOn(m) && filter.value.accepts(m));
      && (InvokedBy(Receiver(Some(code), filter), m) == Some(code.token) <==> passes)
      && (InvokedBy(Receiver(Some(code), filter), m).None? <==> !passes)
      && (passes <==> EffectOf(Deliver(Receiver(None, filter), m)) == Faults(NullReferenceError))
  {
  }

  /** The work a callback can still cause: itself and everything it may post, transitively. */
  function Size(cb: Callback): nat
    decreases cb, 1
  {
    match cb
    case Posted(code) => 1 + Weight(code.posts)
    case Deliver(Plain(code), _) => 1 + (if code.Some? then Weight(code.value.posts) else 0)
    case Deliver(Receiver(code, _), _) => 1 + (if code.Some? then Weight(code.value.posts) else 0)
    case Deliver(Waiter(_, _), _) => 1
  }

  /** The work a queue can still cause. */
  function Weight(q: seq<Callback>): nat
    decreases q, 0
  {
    if q == [] then 0 else Size(q[0]) + Weight(q[1..])
  }

  lemma {:induction false} WeightAppend(a: seq<Callback>, b: seq<Callback>)
    ensures Weight(a + b) == Weight(a) + Weight(b)
  {
    if a == [] {
      assert a + b == b;
    } else {
      assert (a + b)[1..] == a[1..] + b;
      WeightAppend(a[1..], b);
    }
  }

  /** Running a callback posts strictly less work than the callback stood for. */
  lemma PostsAreLighter(cb: Callback)
    ensures Weight(PostsOf(EffectOf(cb))) < Size(cb)
  {
  }

  /** The completion cells a callback may write to, itself or through what it posts. */
  ghost function CellsOf(cb: Callback): set<CompletionCell>
    decreases cb, 1
  {
    match cb
    case Posted(code) => CellsIn(code.posts)
    case Deliver(Plain(code), _) => if code.Some? then CellsIn(code.value.posts) else {}
    case Deliver(Receiver(code, _), _) => if code.Some? then CellsIn(code.value.posts) else {}
    case Deliver(Waiter(task, _), _) => {task}
  }

  /** The completion cells a queue may write to. */
  ghost function CellsIn(q: seq<Callback>): set<CompletionCell>
    decreases q, 0
  {
    if q == [] then {} else CellsOf(q[0]) + CellsIn(q[1..])
  }

  lemma {:induction false} CellsInAppend(a: seq<Callback>, b: seq<Callback>)
    ensures CellsIn(a + b) == CellsIn(a) + CellsIn(b)
  {
    if a == [] {
      assert a + b == b;
    } else {
      assert (a + b)[1..] == a[1..] + b;
      CellsInAppend(a[1..], b);
    }
  }

  /** Running a callback writes only to cells it holds, and posts only callbacks over those. */
  lemma EffectCells(cb: Callback)
    ensures EffectOf(cb).TriesSet? ==> EffectOf(cb).task in CellsOf(cb)
    ensures CellsIn(PostsOf(EffectOf(cb))) <= CellsOf(cb)
  {
  }

  /** The values attempted on cell `c` by running the callbacks `ran` in order. */
  ghost function Attempts(ran: seq<Callback>, c: CompletionCell): seq<Option<Message>> {
    if ran == [] then []
    else
      var e := EffectOf(ran[|ran| - 1]);
      Attempts(ran[..|ran| - 1], c) + (if e.TriesSet? && e.task == c then [e.value] else [])
  }

  /** Running one more callback adds its attempt, if it makes one on `c`, at the end. */
  lemma AttemptsSnoc(ran: seq<Callback>, cb: Callback, c: CompletionCell)
    ensures Attempts(ran + [cb], c) ==
      Attempts(ran, c) + (if EffectOf(cb).TriesSet? && EffectOf(cb).task == c then [EffectOf(cb).value] else [])
  {
    assert (ran + [cb])[..|ran|] == ran;
  }
}

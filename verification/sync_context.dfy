/**
  SingleThreadSynchronizationContext: a FIFO queue of callbacks with an "adding completed" flag,
  drained either by a worker loop or, in tests, by RunAllOperations on the calling thread.
  One sequential interleaving is modelled; the blocking collection's waiting is not.
 */
module SyncContext {
  import opened Wrappers
  import opened Model
  import opened Seqs
  import opened Tasks
  import opened Callbacks

  /** What a drain of a queue did: callbacks run in order, what is left, and the fault that ended it. */
  datatype DrainResult = DrainResult(ran: seq<Callback>, rest: seq<Callback>, fault: Option<Error>)

  /**
    Take callbacks from the head of `q` and run them one at a time until the queue is empty.
    What a callback posts goes to the tail unless the context is `closed`. A throwing callback
    ends the drain unless exceptions are `swallowed` (handed to an observer).
   */
  function Drain(q: seq<Callback>, closed: bool, swallow: bool): (r: DrainResult)
    ensures r.ran == [] <==> q == []
    ensures q != [] ==> r.ran[0] == q[0]
    ensures r.fault.Some? ==>
      r.ran != [] && Throws(EffectOf(r.ran[|r.ran| - 1])) && r.fault.value == Thrown(EffectOf(r.ran[|r.ran| - 1]))
    decreases Weight(q)
  {
    if q == [] then DrainResult([], [], None)
    else
      var e := EffectOf(q[0]);
      var next := q[1..] + (if closed then [] else PostsOf(e));
      assert Weight(next) < Weight(q) by {
        assert q == [q[0]] + q[1..];
        WeightAppend(q[1..], if closed then [] else PostsOf(e));
        PostsAreLighter(q[0]);
      }
      if Throws(e) && !swallow then DrainResult([q[0]], next, Some(Thrown(e)))
      else
        var d := Drain(next, closed, swallow);
        DrainResult([q[0]] + d.ran, d.rest, d.fault)
  }

  /** One step of a drain: run the head, queue what it posts, and stop if it throws unobserved. */
  lemma DrainUnfold(q: seq<Callback>, closed: bool, swallow: bool)
    requires q != []
    ensures var e := EffectOf(q[0]);
      var next := q[1..] + (if closed then [] else PostsOf(e));
      Drain(q, closed, swallow) ==
        if Throws(e) && !swallow then DrainResult([q[0]], next, Some(Thrown(e)))
        else var d := Drain(next, closed, swallow); DrainResult([q[0]] + d.ran, d.rest, d.fault)
  {
  }

  /**
    A drain that does not fault runs everything queued, in FIFO order, before what those
    callbacks posted, and leaves the queue empty.
   */
  lemma {:induction false} DrainIsFifo(q: seq<Callback>, closed: bool, swallow: bool)
    ensures var d := Drain(q, closed, swallow);
      d.fault.None? ==> q <= d.ran && d.rest == []
    decreases Weight(q)
  {
    if q != [] {
      var e := EffectOf(q[0]);
      var next := q[1..] + (if closed then [] else PostsOf(e));
      assert Weight(next) < Weight(q) by {
        assert q == [q[0]] + q[1..];
        WeightAppend(q[1..], if closed then [] else PostsOf(e));
        PostsAreLighter(q[0]);
      }
      if !(Throws(e) && !swallow) {
        DrainIsFifo(next, closed, swallow);
      }
    }
  }

  /** On a closed context nothing is posted, so a drain runs a prefix of the queue and no more. */
  lemma {:induction false} ClosedDrainRunsPrefix(q: seq<Callback>, swallow: bool)
    ensures var d := Drain(q, true, swallow);
      d.ran <= q && d.ran + d.rest == q
    decreases Weight(q)
  {
    if q != [] {
      assert q == [q[0]] + q[1..];
      assert Weight(q[1..]) < Weight(q);
      var e := EffectOf(q[0]);
      assert q[1..] + [] == q[1..];
      DrainUnfold(q, true, swallow);
      if !(Throws(e) && !swallow) {
        ClosedDrainRunsPrefix(q[1..], swallow);
        var d := Drain(q[1..], true, swallow);
        assert Drain(q, true, swallow) == DrainResult([q[0]] + d.ran, d.rest, d.fault);
        assert ([q[0]] + d.ran) + d.rest == [q[0]] + (d.ran + d.rest);
      }
    }
  }

  /** With an unhandled-exception observer a drain never faults. */
  lemma {:induction false} DrainObserved(q: seq<Callback>, closed: bool)
    ensures Drain(q, closed, true).fault.None?
    decreases Weight(q)
  {
    if q != [] {
      var e := EffectOf(q[0]);
      var next := q[1..] + (if closed then [] else PostsOf(e));
      assert Weight(next) < Weight(q) by {
        assert q == [q[0]] + q[1..];
        WeightAppend(q[1..], if closed then [] else PostsOf(e));
        PostsAreLighter(q[0]);
      }
      DrainObserved(next, closed);
    }
  }

  /**
    Without an observer a drain faults exactly when one of the callbacks it ran throws; it stops
    at the first such callback, which is the last one it ran, and leaves the rest queued.
   */
  lemma {:induction false} DrainFaults(q: seq<Callback>, closed: bool)
    ensures var d := Drain(q, closed, false);
      && (d.fault.Some? <==> exists i :: 0 <= i < |d.ran| && Throws(EffectOf(d.ran[i])))
      && (d.fault.Some? ==> Throws(EffectOf(d.ran[|d.ran| - 1])))
      && (forall i :: 0 <= i < |d.ran| - 1 ==> !Throws(EffectOf(d.ran[i])))
    decreases Weight(q)
  {
    if q != [] {
      var e := EffectOf(q[0]);
      var next := q[1..] + (if closed then [] else PostsOf(e));
      assert Weight(next) < Weight(q) by {
        assert q == [q[0]] + q[1..];
        WeightAppend(q[1..], if closed then [] else PostsOf(e));
        PostsAreLighter(q[0]);
      }
      if !Throws(e) {
        DrainFaults(next, closed);
        var d := Drain(next, closed, false);
        var ran := [q[0]] + d.ran;
        assert Drain(q, closed, false) == DrainResult(ran, d.rest, d.fault);
        assert !Throws(EffectOf(ran[0]));
        assert forall i :: 1 <= i < |ran| ==> ran[i] == d.ran[i - 1];
        if d.fault.Some? {
          var i :| 0 <= i < |d.ran| && Throws(EffectOf(d.ran[i]));
          assert Throws(EffectOf(ran[i + 1]));
        }
      } else {
        assert Drain(q, closed, false).ran == [q[0]];
        assert [q[0]][0] == q[0];
      }
    }
  }

  /**
    A drain split after `ran`: running the head of what is left either ends the drain, when it
    throws unobserved, or moves that callback to the end of `ran`.
   */
  lemma DrainStep(q0: seq<Callback>, ran: seq<Callback>, q: seq<Callback>, closed: bool, swallow: bool)
    requires q != []
    requires Drain(q0, closed, swallow) == var d := Drain(q, closed, swallow); DrainResult(ran + d.ran, d.rest, d.fault)
    ensures var e := EffectOf(q[0]);
      var next := q[1..] + (if closed then [] else PostsOf(e));
      && (Throws(e) && !swallow ==>
            Drain(q0, closed, swallow) == DrainResult(ran + [q[0]], next, Some(Thrown(e))))
      && (!(Throws(e) && !swallow) ==>
            Drain(q0, closed, swallow) == var d := Drain(next, closed, swallow); DrainResult((ran + [q[0]]) + d.ran, d.rest, d.fault))
  {
    DrainUnfold(q, closed, swallow);
    var e := EffectOf(q[0]);
    var next := q[1..] + (if closed then [] else PostsOf(e));
    if !(Throws(e) && !swallow) {
      var d := Drain(next, closed, swallow);
      assert ran + ([q[0]] + d.ran) == (ran + [q[0]]) + d.ran;
    }
  }

  /** The state a worker loop leaves its thread in when it returns. */
  datatype WorkerExit =
    | Finished  // the queue is drained and adding is completed: the thread ends
    | Idle      // the queue is drained and adding is open: the thread waits for more

  class SingleThreadSynchronizationContext {
    /** The pending callbacks, oldest first. */
    var operations: seq<Callback>
    /** Whether CompleteAdding has been called on the queue. */
    var addingCompleted: bool
    /** The handlers attached to the UnhandledException event, in the order they were attached. */
    var observers: seq<nat>

    constructor ()
      ensures operations == [] && !addingCompleted && observers == []
    {
      operations := [];
      addingCompleted := false;
      observers := [];
    }

    /**
      Post: a null callback is rejected; otherwise the callback goes to the tail of the queue,
      or is silently dropped once adding is completed.
     */
    method Post(callback: Option<Callback>) returns (r: Outcome<Error>)
      modifies this
      ensures callback.None? ==> r == Fail(ArgumentNullError("callback")) && operations == old(operations)
      ensures callback.Some? ==> r == Pass
      ensures callback.Some? && !old(addingCompleted) ==> operations == old(operations) + [callback.value]
      ensures callback.Some? && old(addingCompleted) ==> operations == old(operations)
      ensures addingCompleted == old(addingCompleted) && observers == old(observers)
    {
      if callback.None? {
        return Fail(ArgumentNullError("callback"));
      }
      if !addingCompleted {
        operations := operations + [callback.value];
      }
      r := Pass;
    }

    /** Send: synchronous dispatch is not supported and always throws. */
    method Send(callback: Option<Callback>) returns (r: Outcome<Error>)
      ensures r == Fail(NotSupportedError)
    {
      r := Fail(NotSupportedError);
    }

    /** Complete: closes the queue for new callbacks; what is queued stays queued. */
    method Complete()
      modifies this
      ensures addingCompleted
      ensures operations == old(operations) && observers == old(observers)
    {
      addingCompleted := true;
    }

    /** `UnhandledException += handler`: the handler joins the end of the invocation list. */
    method AddUnhandledExceptionObserver(handler: nat)
      modifies this
      ensures observers == old(observers) + [handler]
      ensures operations == old(operations) && addingCompleted == old(addingCompleted)
    {
      observers := observers + [handler];
    }

    /**
      `UnhandledException -= handler`: the last occurrence of the handler leaves the invocation
      list; removing a handler that is not attached changes nothing.
     */
    method RemoveUnhandledExceptionObserver(handler: nat)
      modifies this
      ensures observers == RemoveLast(old(observers), handler)
      ensures operations == old(operations) && addingCompleted == old(addingCompleted)
    {
      observers := RemoveLast(observers, handler);
    }

    /** Runs one callback on this context's thread and reports what it did. */
    method Execute(cb: Callback) returns (e: Effect)
      modifies this, CellsOf(cb)
      ensures e == EffectOf(cb)
      ensures operations == old(operations) + (if addingCompleted then [] else PostsOf(e))
      ensures addingCompleted == old(addingCompleted) && observers == old(observers)
      ensures forall c: CompletionCell :: c in CellsOf(cb) && old(allocated(c)) ==>
        c.state == if e.TriesSet? && e.task == c then Settle(old(c.state), e.value) else old(c.state)
    {
      e := EffectOf(cb);
      EffectCells(cb);
      match e
      case RunsCode(code) =>
        // the user code's own Post calls, made while it runs on this thread
        if !addingCompleted {
          operations := operations + code.posts;
        }
      case TriesSet(task, value) =>
        var _ := task.TrySetResult(value);
      case Ignored =>
      case Faults(_) =>
    }

    /**
      One turn of the worker loop: take the head of the queue and run it. Every cell the
      callback can reach has seen one more attempt if the callback tried to complete it.
     */
    method RunHead(ghost init: map<CompletionCell, Completion>, ghost ran: seq<Callback>)
      returns (cb: Callback, e: Effect)
      requires operations != []
      requires forall c :: c in init ==> c.state == SettleAll(init[c], Attempts(ran, c))
      modifies this, CellsOf(operations[0])
      ensures cb == old(operations[0]) && e == EffectOf(cb)
      ensures operations == old(operations[1..]) + (if addingCompleted then [] else PostsOf(e))
      ensures addingCompleted == old(addingCompleted) && observers == old(observers)
      ensures forall c :: c in init ==> c.state == SettleAll(init[c], Attempts(ran + [cb], c))
    {
      cb := operations[0];
      operations := operations[1..];
      e := Execute(cb);
      forall c | c in init
        ensures c.state == SettleAll(init[c], Attempts(ran + [cb], c))
      {
        AttemptsSnoc(ran, cb, c);
        if e.TriesSet? && e.task == c {
          EffectCells(cb);
          SettleAllSnoc(init[c], Attempts(ran, c), e.value);
        } else {
          assert Attempts(ran, c) + [] == Attempts(ran, c);
        }
      }
    }

    /**
      The shared loop: take callbacks off the queue and run them until it is empty. A throwing
      callback ends the loop with its exception unless `swallow` hands it to the observer.
     */
    method DrainQueue(swallow: bool) returns (ran: seq<Callback>, fault: Option<Error>)
      modifies this, CellsIn(operations)
      ensures var d := Drain(old(operations), old(addingCompleted), swallow);
        ran == d.ran && operations == d.rest && fault == d.fault
      ensures addingCompleted == old(addingCompleted) && observers == old(observers)
      ensures forall c: CompletionCell :: c in old(CellsIn(operations)) && old(allocated(c)) ==>
        c.state == SettleAll(old(c.state), Attempts(ran, c))
    {
      ghost var q0 := operations;
      ghost var cells := CellsIn(operations);
      ghost var init := map c | c in cells :: c.state;
      ran := [];
      fault := None;
      while operations != []
        invariant CellsIn(operations) <= cells
        invariant addingCompleted == old(addingCompleted) && observers == old(observers)
        invariant Drain(q0, addingCompleted, swallow) ==
          var d := Drain(operations, addingCompleted, swallow);
          DrainResult(ran + d.ran, d.rest, d.fault)
        invariant forall c :: c in init ==> c.state == SettleAll(init[c], Attempts(ran, c))
        decreases Weight(operations)
      {
        var cb, e := DrainHead(q0, init, cells, ran, swallow);
        ran := ran + [cb];
        if Throws(e) && !swallow {
          fault := Some(Thrown(e));
          return;
        }
      }
    }

    /**
      One round of the drain loop: runs the head of the queue, and keeps the loop's account of
      the whole drain from `q0` and of the completion cells.
     */
    method DrainHead(ghost q0: seq<Callback>, ghost init: map<CompletionCell, Completion>,
                     ghost cells: set<CompletionCell>, ghost ran: seq<Callback>, ghost swallow: bool)
      returns (cb: Callback, e: Effect)
      requires operations != [] && CellsIn(operations) <= cells
      requires Drain(q0, addingCompleted, swallow) ==
        var d := Drain(operations, addingCompleted, swallow);
        DrainResult(ran + d.ran, d.rest, d.fault)
      requires forall c :: c in init ==> c.state == SettleAll(init[c], Attempts(ran, c))
      modifies this, cells
      ensures e == EffectOf(cb) && CellsIn(operations) <= cells
      ensures addingCompleted == old(addingCompleted) && observers == old(observers)
      ensures Weight(operations) < old(Weight(operations))
      ensures Throws(e) && !swallow ==>
        Drain(q0, addingCompleted, swallow) == DrainResult(ran + [cb], operations, Some(Thrown(e)))
      ensures !(Throws(e) && !swallow) ==>
        Drain(q0, addingCompleted, swallow) ==
          var d := Drain(operations, addingCompleted, swallow);
          DrainResult((ran + [cb]) + d.ran, d.rest, d.fault)
      ensures forall c :: c in init ==> c.state == SettleAll(init[c], Attempts(ran + [cb], c))
    {
      ghost var q := operations;
      ghost var closed := addingCompleted;
      assert CellsOf(q[0]) <= cells by { assert q == [q[0]] + q[1..]; }
      cb, e := RunHead(init, ran);
      ghost var next := q[1..] + (if closed then [] else PostsOf(e));
      assert Weight(next) < Weight(q) && CellsIn(next) <= cells by {
        assert q == [cb] + q[1..];
        WeightAppend(q[1..], if closed then [] else PostsOf(e));
        PostsAreLighter(cb);
        CellsInAppend(q[1..], if closed then [] else PostsOf(e));
        EffectCells(cb);
      }
      DrainStep(q0, ran, q, closed, swallow);
    }

    /**
      RunAllOperations: on an empty queue, returns false and runs nothing; otherwise drains the
      queue (including what the callbacks post meanwhile) and returns true, unless a callback
      throws, whose exception then escapes with the remaining callbacks still queued.
     */
    method RunAllOperations() returns (r: Result<bool, Error>, ran: seq<Callback>)
      modifies this, CellsIn(operations)
      ensures old(operations) == [] ==> r == Success(false) && ran == [] && operations == []
      ensures old(operations) != [] ==>
        var d := Drain(old(operations), old(addingCompleted), false);
        && ran == d.ran && operations == d.rest
        && r == if d.fault.Some? then Failure(d.fault.value) else Success(true)
      ensures addingCompleted == old(addingCompleted) && observers == old(observers)
      ensures forall c: CompletionCell :: c in old(CellsIn(operations)) && old(allocated(c)) ==>
        c.state == SettleAll(old(c.state), Attempts(ran, c))
    {
      if operations == [] {
        return Success(false), [];
      }
      var fault;
      ran, fault := DrainQueue(false);
      r := if fault.Some? then Failure(fault.value) else Success(true);
    }

    /**
      The worker loop of RunOnCurrentThread, up to the point where the queue is empty: a
      callback's exception goes to the UnhandledException observer when there is one, and is
      rethrown, ending the loop, when there is none.
     */
    method RunOnCurrentThread() returns (r: Result<WorkerExit, Error>, ran: seq<Callback>)
      modifies this, CellsIn(operations)
      ensures var d := Drain(old(operations), old(addingCompleted), old(observers) != []);
        && ran == d.ran && operations == d.rest
        && r == if d.fault.Some? then Failure(d.fault.value)
                else if addingCompleted then Success(Finished) else Success(Idle)
      ensures addingCompleted == old(addingCompleted) && observers == old(observers)
      ensures forall c: CompletionCell :: c in old(CellsIn(operations)) && old(allocated(c)) ==>
        c.state == SettleAll(old(c.state), Attempts(ran, c))
    {
      var fault;
      ran, fault := DrainQueue(observers != []);
      r := if fault.Some? then Failure(fault.value)
           else if addingCompleted then Success(Finished) else Success(Idle);
    }
  }
}

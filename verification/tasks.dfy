/**
  The one-shot completion cell behind a `WaitFor` task (the part of TaskCompletionSource the
  library uses): it starts Pending and the first `TrySetResult` fixes its result for good.
 */
module Tasks {
  import opened Wrappers
  import opened Types

  /** The state of a task: not yet resolved, or resolved to an event or to null. */
  datatype Completion = Pending | Done(result: Option<Message>)

  /** The effect of one `TrySetResult(v)` on a cell in state `st`. */
  function Settle(st: Completion, v: Option<Message>): Completion {
    if st.Pending? then Done(v) else st
  }

  /** The state after the attempts `vs`, made in that order, starting from `st`. */
  function SettleAll(st: Completion, vs: seq<Option<Message>>): Completion {
    if vs == [] then st else Settle(SettleAll(st, vs[..|vs| - 1]), vs[|vs| - 1])
  }

  /** One more attempt acts on the state the earlier attempts left. */
  lemma SettleAllSnoc(st: Completion, vs: seq<Option<Message>>, v: Option<Message>)
    ensures SettleAll(st, vs + [v]) == Settle(SettleAll(st, vs), v)
  {
    assert (vs + [v])[..|vs|] == vs;
  }

  /** A resolved cell never changes again, whatever is attempted afterwards. */
  lemma {:induction false} DoneIsFinal(v: Option<Message>, vs: seq<Option<Message>>)
    ensures SettleAll(Done(v), vs) == Done(v)
  {
    if vs != [] {
      DoneIsFinal(v, vs[..|vs| - 1]);
    }
  }

  /**
    Resolution is exactly-once and the first attempt wins: a pending cell stays pending with no
    attempt and is resolved to the first attempted value otherwise.
   */
  lemma {:induction false} FirstAttemptWins(vs: seq<Option<Message>>)
    ensures SettleAll(Pending, vs) == if vs == [] then Pending else Done(vs[0])
  {
    if |vs| > 1 {
      FirstAttemptWins(vs[..|vs| - 1]);
    }
  }

  /** A TaskCompletionSource<IEvent>, as the cell its two writers race for. */
  class CompletionCell {
    var state: Completion

    constructor ()
      ensures state == Pending
    {
      state := Pending;
    }

    /** `TrySetResult(v)`: succeeds, and resolves the cell to `v`, exactly when it is pending. */
    method TrySetResult(v: Option<Message>) returns (ok: bool)
      modifies this
      ensures ok == old(state).Pending?
      ensures state == Settle(old(state), v)
    {
      ok := state.Pending?;
      if ok {
        state := Done(v);
      }
    }
  }
}

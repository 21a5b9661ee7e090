/** The process-wide error store: runs a callback and, when it fails, keeps
    the failure instead of letting it escape ("capture and stop"). */
module Errors {
  import opened Remote

  /** The error the store holds after a callback settles with `outcome`:
      a failure overwrites whatever was held, a success leaves it. */
  function AfterRun<T>(error: Option<Failure>, outcome: Result<T>): (after: Option<Failure>)
    ensures outcome.Ok? ==> after == error
    ensures outcome.Err? ==> after == Some(outcome.error)
  {
    match outcome
    case Ok(_) => error
    case Err(e) => Some(e)
  }

  class ErrorStore {
    /** The most recent captured failure; `None` is `undefined`. */
    var error: Option<Failure>

    constructor ()
      ensures error == None
    {
      error := None;
    }

    /** `runCallback`: the callback has already run up to its outcome; its
        own effects stay in place, since this store changes only `error`.
        A success hands back the callback's value; a failure is stored and
        nothing is returned. */
    method RunCallback<T>(outcome: Result<T>) returns (r: Option<T>)
      modifies this
      ensures outcome.Ok? ==> r == Some(outcome.value) && error == old(error)
      ensures outcome.Err? ==> r == None && error == Some(outcome.error)
    {
      match outcome
      case Ok(v) =>
        r := Some(v);
      case Err(e) =>
        error := Some(e);
        r := None;
    }

    /** `runAsyncCallback`: the same capture for an awaited callback; it
        always settles normally. */
    method RunAsyncCallback(outcome: Result<()>)
      modifies this
      ensures error == AfterRun(old(error), outcome)
      ensures outcome.Ok? ==> error == old(error)
      ensures outcome.Err? ==> error == Some(outcome.error)
    {
      if outcome.Err? {
        error := Some(outcome.error);
      }
    }

    /** `clearError`: back to no error, whatever was held. */
    method ClearError()
      modifies this
      ensures error == None
    {
      error := None;
    }
  }

  /** Two failures with a success between them: the later failure is held,
      and clearing, once or twice, leaves nothing held. */
  method FailTwiceThenClear(first: Failure, second: Failure) returns (held: Option<Failure>, cleared: Option<Failure>)
    ensures held == Some(second) && cleared == None
  {
    var store := new ErrorStore();
    store.RunAsyncCallback(Err(first));
    store.RunAsyncCallback(Ok(()));
    store.RunAsyncCallback(Err(second));
    held := store.error;
    store.ClearError();
    store.ClearError();
    cleared := store.error;
  }
}

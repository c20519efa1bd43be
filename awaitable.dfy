/**
 * Awaitable jobs: one-shot holders of a result that a caller retrieves with
 * `await()` or with `await(timeoutMillis:)`.
 *
 * The three constant variants (the base job, the empty job and the "just" job)
 * are values; the asynchronous job, whose result cell is written once by a
 * callback, is a class.  Blocking becomes a precondition: `await()` may only be
 * asked of a job whose completion signal has fired.
 */
module Awaitables {
  import opened Fp

  /** Errors reported by awaitable jobs. */
  datatype AwaitableError = Unavailable | TimedOut(millis: real)
  {
    /**
     * The error's description.  Swift renders the Double inside the timeout
     * message itself; here that rendering is the parameter `render`.
     */
    function Description(render: real -> string): (s: string)
      ensures Unavailable? ==> s == "No result available"
      ensures TimedOut? ==> s == "Operation timed out after " + render(millis) + " milliseconds"
    {
      match this
      case Unavailable => "No result available"
      case TimedOut(m) => "Operation timed out after " + render(m) + " milliseconds"
    }
  }

  /** Swift's `Error`: either an awaitable error or one thrown by the job's own work. */
  datatype Error = Awaiting(reason: AwaitableError) | Thrown(code: int)

  /** What `await` yields: a value, or the error it throws. */
  type Outcome<T> = Try<T, Error>

  /** Swift's `Any`, as far as the modelled code uses it: `Void()` or some other value. */
  datatype Any = Void | Value(tag: int)

  /**
   * The constant awaitable jobs: the base class `Awaitable`, which has no
   * result, and `JustAwaitable(result)`.
   */
  datatype Awaitable<T> = Base | Just(result: T)

  /**
   * `EmptyAwaitable.instance`, the singleton whose `await` returns `Void()`.
   * Behaviourally it is the job that holds `Void`.
   */
  const EmptyInstance: Awaitable<Any> := Just(Void)

  /** `await()` of a constant job. */
  function Await<T>(job: Awaitable<T>): (r: Outcome<T>)
    ensures r.Success? <==> job.Just?
    ensures r.Success? ==> r.value == job.result
    ensures r.Failure? ==> r.error == Awaiting(Unavailable)
  {
    match job
    case Base => Failure(Awaiting(Unavailable))
    case Just(v) => Success(v)
  }

  /**
   * `await(timeoutMillis:)` of a constant job: every one of them forwards to
   * `await()`, so the timeout plays no part and a constant job never times out.
   */
  function AwaitWithin<T>(job: Awaitable<T>, timeoutMillis: real): (r: Outcome<T>)
    ensures r == Await(job)
    ensures r != Failure(Awaiting(TimedOut(timeoutMillis)))
  {
    Await(job)
  }

  /** The base job always fails with `unavailable`, with or without a timeout. */
  lemma BaseIsUnavailable<T>(timeoutMillis: real)
    ensures Await<T>(Base) == Failure(Awaiting(Unavailable))
    ensures AwaitWithin<T>(Base, timeoutMillis) == Await<T>(Base)
  {
  }

  /** The empty job returns `Void` for every timeout and never fails. */
  lemma EmptyNeverFails(timeoutMillis: real)
    ensures Await(EmptyInstance) == Success(Void)
    ensures AwaitWithin(EmptyInstance, timeoutMillis) == Success(Void)
  {
  }

  /** `JustAwaitable(r)` returns exactly `r`, whatever the timeout. */
  lemma JustReturnsItsResult<T>(result: T, timeoutMillis: real)
    ensures Await(Just(result)) == Success(result)
    ensures AwaitWithin(Just(result), timeoutMillis) == Success(result)
  {
  }

  /** The two states of an asynchronous job. */
  datatype JobState<T> = Pending | Resolved(result: Outcome<T>)

  /**
   * What the block handed to `AsyncAwaitable.init` does with its callback while
   * the initialiser runs it: call it at once with a result, or keep it and call
   * it later (through `AsyncAwaitable.Complete`).  Either way it calls it at
   * most once.
   */
  datatype AsyncBlock<T> = CallsBackAtOnce(result: Outcome<T>) | CallsBackLater

  /**
   * `AsyncAwaitable`: a "hot" job.  Its block runs inside the initialiser; the
   * result cell holds `failure(unavailable)` until the callback stores the
   * block's result and leaves the dispatch group.  The dispatch group, entered
   * once in the initialiser, becomes the flag `signalled`.
   */
  class AsyncAwaitable<T> {
    var result: Outcome<T>
    var signalled: bool

    /** Until the signal fires, the cell holds its initial value. */
    ghost predicate Valid()
      reads this
    {
      !signalled ==> result == Failure(Awaiting(Unavailable))
    }

    ghost function State(): JobState<T>
      reads this
    {
      if signalled then Resolved(result) else Pending
    }

    /** Creates the job and runs its block straight away. */
    constructor (block: AsyncBlock<T>)
      ensures Valid()
      ensures block.CallsBackAtOnce? ==> State() == Resolved(block.result)
      ensures block.CallsBackLater? ==> State() == Pending
      ensures block.CallsBackLater? ==> result == Failure(Awaiting(Unavailable))
    {
      result := Failure(Awaiting(Unavailable));
      signalled := false;
      new;
      if block.CallsBackAtOnce? {
        Complete(block.result);
      }
    }

    /**
     * The callback given to the block: stores the result and leaves the group.
     * The group was entered once, so the callback may fire only once.
     */
    method Complete(r: Outcome<T>)
      requires Valid() && !signalled
      modifies this
      ensures Valid() && State() == Resolved(r)
    {
      result := r;
      signalled := true;
    }

    /** `await()`: waits for the signal, then returns the cached result or throws its error. */
    method Await() returns (r: Outcome<T>)
      requires Valid() && signalled
      ensures State() == Resolved(r)
    {
      r := result;
    }

    /**
     * `await(timeoutMillis:)`: the cached result once the signal has fired,
     * otherwise `timedOut` carrying the same timeout.  The job itself goes on.
     */
    method AwaitWithin(timeoutMillis: real) returns (r: Outcome<T>)
      requires Valid()
      ensures State().Resolved? ==> r == State().result
      ensures State().Pending? ==> r == Failure(Awaiting(TimedOut(timeoutMillis)))
    {
      if signalled {
        r := result;
      } else {
        r := Failure(Awaiting(TimedOut(timeoutMillis)));
      }
    }
  }

  /** A resolved job gives the same result on every `await` and on every bounded wait. */
  method AwaitRepeatedly<T>(job: AsyncAwaitable<T>, timeoutMillis: real)
    returns (first: Outcome<T>, second: Outcome<T>, bounded: Outcome<T>)
    requires job.Valid() && job.signalled
    ensures first == second == bounded
    ensures job.State() == Resolved(first)
  {
    first := job.Await();
    second := job.Await();
    bounded := job.AwaitWithin(timeoutMillis);
  }

  /** A block that calls back synchronously leaves the job resolved before `init` returns. */
  method HotStart<T>(r: Outcome<T>, timeoutMillis: real) returns (awaited: Outcome<T>, bounded: Outcome<T>)
    ensures awaited == r && bounded == r
  {
    var job := new AsyncAwaitable(CallsBackAtOnce(r));
    awaited := job.Await();
    bounded := job.AwaitWithin(timeoutMillis);
  }

  /**
   * A job whose block calls back later: bounded waits time out with the
   * requested timeout until the callback fires, after which they and `await()`
   * give the callback's result.
   */
  method LateCallback<T>(r: Outcome<T>, early: real, late: real)
    returns (beforeCallback: Outcome<T>, awaited: Outcome<T>, afterCallback: Outcome<T>)
    ensures beforeCallback == Failure(Awaiting(TimedOut(early)))
    ensures awaited == r && afterCallback == r
  {
    var job := new AsyncAwaitable(CallsBackLater);
    beforeCallback := job.AwaitWithin(early);
    job.Complete(r);
    awaited := job.Await();
    afterCallback := job.AwaitWithin(late);
  }
}

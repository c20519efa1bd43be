/**
 * Saga glue: the errors specific to sagas, and `SagaInput`, the record handed
 * to every saga effect (its dispatcher, its state getter, the monitor and the
 * scheduler it runs on).
 *
 * Dispatchers are closures in the source.  Here a dispatcher is a value whose
 * invocation yields the awaitable it returns and the trace of the dispatcher
 * calls it performs, so that what a wrapping closure forwards can be stated.
 */
module Sagas {
  import Awaitables
  import SagaMonitors
  import Fp

  /** Errors specific to sagas. */
  datatype SagaError = Unimplemented | Unavailable
  {
    function Description(): (s: string)
      ensures Unimplemented? ==> s == "Should have implemented this method"
      ensures Unavailable? ==> s == "Should have emitted something"
    {
      match this
      case Unimplemented => "Should have implemented this method"
      case Unavailable => "Should have emitted something"
    }
  }

  /** One call of a dispatcher identified by `target`. */
  datatype Invocation<A> = Invocation(target: nat, action: A)

  /**
   * A plain `ReduxDispatcher`: the default `{_ in}`, which does nothing, or a
   * dispatcher with identity `target`.
   */
  datatype PlainDispatcher = NoOp | Dispatcher(target: nat)

  /**
   * The dispatcher calls that invoking a plain dispatcher with `a` performs.
   * The trace records effects, not invocations: invoking the no-op dispatcher
   * (which the lifted closure does, once per action) leaves no trace.
   */
  function CallPlain<A>(d: PlainDispatcher, a: A): (trace: seq<Invocation<A>>)
    ensures d.NoOp? ==> trace == []
    ensures d.Dispatcher? ==> trace == [Invocation(d.target, a)]
  {
    match d
    case NoOp => []
    case Dispatcher(t) => [Invocation(t, a)]
  }

  /**
   * An `AwaitableReduxDispatcher`: either the closure
   * `{ dispatcher($0); return EmptyAwaitable.instance }` built around a plain
   * dispatcher, or some other awaitable dispatcher with identity `target` that
   * returns `job`.
   */
  datatype AwaitableDispatcher =
    | Lifted(inner: PlainDispatcher)
    | Direct(target: nat, job: Awaitables.Awaitable<Awaitables.Any>)

  /** Invoking an awaitable dispatcher: the job it returns and the calls it makes. */
  function CallAwaitable<A>(d: AwaitableDispatcher, a: A): (r: (Awaitables.Awaitable<Awaitables.Any>, seq<Invocation<A>>))
    ensures d.Lifted? ==> r.0 == Awaitables.EmptyInstance && r.1 == CallPlain(d.inner, a)
    ensures d.Direct? ==> r.0 == d.job && r.1 == [Invocation(d.target, a)]
  {
    match d
    case Lifted(inner) => (Awaitables.EmptyInstance, CallPlain(inner, a))
    case Direct(t, job) => (job, [Invocation(t, a)])
  }

  /** `SchedulerType`, opaque; the default is a new background serial scheduler. */
  datatype Scheduler = SerialBackground | Custom(handle: nat)

  /** `ReduxStateGetter<Any>`, opaque. */
  datatype StateGetter = StateGetter(handle: nat)

  type Monitor<A> = SagaMonitors.SagaMonitor<AwaitableDispatcher, A>

  /** Input for each saga effect. */
  datatype SagaInput<A> = SagaInput(
    dispatcher: AwaitableDispatcher,
    lastState: StateGetter,
    monitor: Monitor<A>,
    scheduler: Scheduler)

  /** The initialiser taking an awaitable dispatcher: stores all four fields as given. */
  function NewSagaInput<A>(
    dispatcher: AwaitableDispatcher,
    lastState: StateGetter,
    monitor: Monitor<A>,
    scheduler: Scheduler := SerialBackground): (input: SagaInput<A>)
    ensures input.dispatcher == dispatcher
    ensures input.lastState == lastState
    ensures input.monitor == monitor
    ensures input.scheduler == scheduler
  {
    SagaInput(dispatcher, lastState, monitor, scheduler)
  }

  /**
   * The initialiser taking a plain dispatcher (by default the no-op one): lifts
   * it into an awaitable dispatcher that forwards each action to it and returns
   * the empty awaitable, and stores the other three fields as given.
   */
  function LiftingSagaInput<A>(
    dispatcher: PlainDispatcher := NoOp,
    lastState: StateGetter,
    monitor: Monitor<A>,
    scheduler: Scheduler := SerialBackground): (input: SagaInput<A>)
    ensures input.dispatcher == Lifted(dispatcher)
    ensures input.lastState == lastState
    ensures input.monitor == monitor
    ensures input.scheduler == scheduler
  {
    SagaInput(Lifted(dispatcher), lastState, monitor, scheduler)
  }

  /**
   * Invoking the lifted dispatcher performs exactly the calls of the wrapped
   * dispatcher and returns the empty awaitable.
   */
  lemma LiftedDispatcherForwards<A>(d: PlainDispatcher, a: A, lastState: StateGetter, monitor: Monitor<A>, scheduler: Scheduler)
    ensures CallAwaitable(LiftingSagaInput(d, lastState, monitor, scheduler).dispatcher, a)
      == (Awaitables.EmptyInstance, CallPlain(d, a))
  {
  }

  /**
   * The lifted dispatcher calls the wrapped dispatcher exactly once, with the
   * same action, and returns a job whose `await` yields `Void` for any timeout.
   */
  lemma LiftedForwardsOnce<A>(target: nat, a: A, lastState: StateGetter, monitor: Monitor<A>, timeoutMillis: real)
    ensures var (job, trace) := CallAwaitable(LiftingSagaInput(Dispatcher(target), lastState, monitor).dispatcher, a);
      && trace == [Invocation(target, a)]
      && job == Awaitables.EmptyInstance
      && Awaitables.Await(job) == Awaitables.AwaitWithin(job, timeoutMillis) == Fp.Success(Awaitables.Void)
  {
  }

  /** Lifting the default dispatcher gives one that calls nothing and still returns the empty job. */
  lemma DefaultLiftCallsNothing<A>(a: A, lastState: StateGetter, monitor: Monitor<A>)
    ensures CallAwaitable(LiftingSagaInput(lastState := lastState, monitor := monitor).dispatcher, a)
      == (Awaitables.EmptyInstance, [])
  {
  }
}

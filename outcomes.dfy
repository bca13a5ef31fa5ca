/**
 * What an invocation of a mock can end in, and how a failure is classified
 * as fatal and escalated under the process-wide policy.
 */
module Outcomes {
  import opened MockEasyErrors

  /** The status code the engine terminates the process with. */
  const FATAL_EXIT_CODE: int := 999

  /** A thrown value, by the classes the engine tells apart. */
  datatype Thrown =
    | EngineError(error: MockEasyError)  // an instance of MockEasyError
    | TypeError(message: string)         // an instance of TypeError
    | OtherError(message: string)        // anything else a callback throws

  /** What a callback does when it is run: return a value or throw. */
  datatype Outcome<V> = Returned(value: V) | Threw(thrown: Thrown)

  /** How an invocation of a mock ends for its caller. */
  datatype Completion<V> = Return(value: V) | Raise(thrown: Thrown) | Exit(code: int)

  /**
   * A scheduled callback. A user-supplied callback is opaque and named by an
   * identifier; `Never` is the engine's own callback installed by `never()`,
   * which throws an illegal-invocation error for the mock it belongs to.
   */
  datatype Callback = User(id: nat) | Never(moduleName: string, funcName: string)

  /** The engine's own errors and type errors are fatal; nothing else is. */
  predicate IsFatal(t: Thrown) {
    t.EngineError? || t.TypeError?
  }

  /** The error handler of an invocation: exit on a fatal error under the policy, else rethrow. */
  function Escalate<V>(t: Thrown, exitOnFatalError: bool): (r: Completion<V>)
    ensures r == Exit(FATAL_EXIT_CODE) || r == Raise(t)
    ensures r.Exit? <==> exitOnFatalError && IsFatal(t)
  {
    if exitOnFatalError && IsFatal(t) then Exit(FATAL_EXIT_CODE) else Raise(t)
  }

  /** A callback's outcome as seen by the mock's caller: a return passes through unchanged. */
  function Deliver<V>(o: Outcome<V>, exitOnFatalError: bool): (r: Completion<V>)
    ensures o.Returned? ==> r == Return(o.value)
    ensures o.Threw? ==> r == Escalate(o.thrown, exitOnFatalError)
  {
    match o
    case Returned(v) => Return(v)
    case Threw(t) => Escalate(t, exitOnFatalError)
  }

  /**
   * Runs a callback on the invocation's arguments. A user callback's
   * behaviour is given by `run`, which receives exactly those arguments.
   */
  function RunCallback<V>(cb: Callback, args: seq<V>, run: (nat, seq<V>) -> Outcome<V>): (o: Outcome<V>)
    ensures cb.User? ==> o == run(cb.id, args)
    ensures cb.Never? ==> o == Threw(EngineError(Create(ILLEGAL_INVOCATION, cb.moduleName, cb.funcName)))
  {
    match cb
    case User(id) => run(id, args)
    case Never(m, f) => Threw(EngineError(Create(ILLEGAL_INVOCATION, m, f)))
  }
}

/**
 * The mocking engine: the per-function mock built by `inject`, the module
 * objects whose function properties `stub` replaces, the process-wide
 * registry of stubbed paths and fatal-error policy, and module-level `reset`.
 */
module Mockeasy {
  import opened Wrappers
  import opened MockEasyErrors
  import opened Outcomes
  import opened Schedule

  /**
   * A mock for `moduleName.functionName`: the function `inject` returns,
   * with its closure state `queue` and `alwaysOn` as fields.
   */
  class Mock {
    const moduleName: string
    const functionName: string
    var queue: seq<Action>
    var alwaysOn: bool

    function State(): Schedule.State
      reads this
    {
      Schedule.State(queue, alwaysOn)
    }

    ghost predicate Valid()
      reads this
    {
      Schedule.Valid(State())
    }

    /** `inject(mockName, functionName)`: a mock with nothing scheduled. */
    constructor (moduleName: string, functionName: string)
      ensures this.moduleName == moduleName && this.functionName == functionName
      ensures State() == Unscheduled && Valid()
    {
      this.moduleName := moduleName;
      this.functionName := functionName;
      queue := [];
      alwaysOn := false;
    }

    /**
     * Calls the mock with `args`. The head entry is used up before its
     * callback runs, whatever the callback then does; the outcome is
     * classified and escalated under the engine's current policy.
     */
    method Invoke<V>(engine: Engine, args: seq<V>, run: (nat, seq<V>) -> Outcome<V>) returns (r: Completion<V>)
      modifies this
      ensures State() == Advance(old(State()))
      ensures old(Valid()) ==> Valid()
      ensures r == Respond(old(State()), args, run, engine.exitOnFatalError, moduleName, functionName)
    {
      var outcome: Outcome<V>;
      if queue == [] {
        outcome := Threw(EngineError(Create(NOT_DEFINED, moduleName, functionName)));
      } else {
        var action := queue[0];
        action := action.(times := Decrement(action.times));
        if action.times == Finite(0) {
          queue := queue[1..];
        } else {
          queue := [action] + queue[1..];
        }
        outcome := RunCallback(action.callback, args, run);
      }
      match outcome
      case Returned(v) =>
        r := Return(v);
      case Threw(t) =>
        var fatal := false;
        if t.EngineError? {
          fatal := true;
        }
        if t.TypeError? {
          fatal := true;
        }
        if engine.exitOnFatalError && fatal {
          r := Exit(FATAL_EXIT_CODE);
        } else {
          r := Raise(t);
        }
    }

    /** `reset()`: back to unscheduled; returns the mock for chaining. */
    method Reset() returns (r: Mock)
      modifies this
      ensures r == this && State() == Unscheduled && Valid()
    {
      queue := [];
      alwaysOn := false;
      r := this;
    }

    /**
     * `times(callback, count)`: a locked mock rejects first, then a count
     * below one; a rejection changes nothing. On success one entry is
     * appended and the lock is set exactly when the count is unbounded.
     */
    method Times(callback: Callback, count: Count) returns (r: Result<Mock, MockEasyError>)
      modifies this
      ensures old(alwaysOn) ==>
                r == Err(Create(INVOCATION_WILL_NEVER_BE_REACHED, moduleName, functionName))
      ensures !old(alwaysOn) && count.Finite? && count.n < 1 ==>
                r == Err(Create(INCORRECT_TIME_DEFINITION, moduleName, functionName))
      ensures r.Err? ==> State() == old(State())
      ensures r.Ok? ==> r.value == this && queue == old(queue) + [Action(count, callback)]
                        && alwaysOn == count.Unbounded?
      ensures r == (match TimesStep(old(State()), callback, count, moduleName, functionName)
                    case Ok(_) => Ok(this)
                    case Err(e) => Err(e))
      ensures r.Ok? ==> State() == TimesStep(old(State()), callback, count, moduleName, functionName).value
      ensures old(Valid()) ==> Valid()
    {
      if alwaysOn {
        return Err(Create(INVOCATION_WILL_NEVER_BE_REACHED, moduleName, functionName));
      }
      if count.Finite? && count.n < 1 {
        return Err(Create(INCORRECT_TIME_DEFINITION, moduleName, functionName));
      }
      alwaysOn := count.Unbounded?;
      queue := queue + [Action(count, callback)];
      r := Ok(this);
    }

    /** `once(callback)`: `times(callback, 1)`. */
    method Once(callback: Callback) returns (r: Result<Mock, MockEasyError>)
      modifies this
      ensures r == (match TimesStep(old(State()), callback, Finite(1), moduleName, functionName)
                    case Ok(_) => Ok(this)
                    case Err(e) => Err(e))
      ensures State() == (match TimesStep(old(State()), callback, Finite(1), moduleName, functionName)
                          case Ok(s) => s
                          case Err(_) => old(State()))
      ensures old(Valid()) ==> Valid()
    {
      r := Times(callback, Finite(1));
      if r.Ok? {
        r := Ok(this);
      }
    }

    /** `always(callback)`: `times(callback, Infinity)`. */
    method Always(callback: Callback) returns (r: Result<Mock, MockEasyError>)
      modifies this
      ensures r == (match TimesStep(old(State()), callback, Unbounded, moduleName, functionName)
                    case Ok(_) => Ok(this)
                    case Err(e) => Err(e))
      ensures State() == (match TimesStep(old(State()), callback, Unbounded, moduleName, functionName)
                          case Ok(s) => s
                          case Err(_) => old(State()))
      ensures old(Valid()) ==> Valid()
    {
      r := Times(callback, Unbounded);
    }

    /** `never()`: `times` with Infinity and a callback that throws illegal-invocation. */
    method Never() returns (r: Result<Mock, MockEasyError>)
      modifies this
      ensures r == (match TimesStep(old(State()), Callback.Never(moduleName, functionName), Unbounded,
                                    moduleName, functionName)
                    case Ok(_) => Ok(this)
                    case Err(e) => Err(e))
      ensures State() == (match TimesStep(old(State()), Callback.Never(moduleName, functionName), Unbounded,
                                          moduleName, functionName)
                          case Ok(s) => s
                          case Err(_) => old(State()))
      ensures old(Valid()) ==> Valid()
    {
      r := Times(Callback.Never(moduleName, functionName), Unbounded);
    }
  }

  /** A property of a module object. */
  datatype Prop =
    | PlainFunction(id: nat)      // a function not produced by the engine
    | MockFunction(mock: Mock)    // a mock, which has its own `reset`
    | Data(id: nat)               // any property that is not a function

  predicate IsFunction(p: Prop) {
    p.PlainFunction? || p.MockFunction?
  }

  /** A loaded module's exports, which `stub` overwrites in place. */
  class Module {
    var props: map<string, Prop>

    constructor (props: map<string, Prop>)
      ensures this.props == props
    {
      this.props := props;
    }
  }

  /** The message of the ordinary error a second `stub` of one path throws. */
  function AlreadyStubbed(modulePath: string): string {
    "[mockeasy Error] already stubbed " + modulePath
  }

  /** The process-wide state of the engine: stubbed paths and the fatal-error policy. */
  class Engine {
    var wasMocked: set<string>
    var exitOnFatalError: bool

    constructor ()
      ensures wasMocked == {} && exitOnFatalError
    {
      wasMocked := {};
      exitOnFatalError := true;
    }

    /** `ignoreFatalErrors()`: only clears the exit-on-fatal policy; returns the engine. */
    method IgnoreFatalErrors() returns (r: Engine)
      modifies this`exitOnFatalError
      ensures r == this && !exitOnFatalError
    {
      exitOnFatalError := false;
      r := this;
    }

    /**
     * `stub(module)` for a module already resolved to `modulePath`, whose
     * base name is `moduleName`. A path stubbed before is rejected before any
     * property is touched; otherwise the path is recorded and every function
     * property is replaced by a fresh, unscheduled mock named after it.
     */
    method Stub(mod: Module, modulePath: string, moduleName: string) returns (r: Result<Module, string>)
      modifies this`wasMocked, mod
      ensures old(modulePath in wasMocked) ==>
                r == Err(AlreadyStubbed(modulePath)) && wasMocked == old(wasMocked) && mod.props == old(mod.props)
      ensures old(modulePath !in wasMocked) ==> r == Ok(mod) && wasMocked == old(wasMocked) + {modulePath}
      ensures r.Ok? ==> mod.props.Keys == old(mod.props).Keys
      ensures r.Ok? ==> forall k :: k in mod.props && !IsFunction(old(mod.props)[k]) ==>
                          mod.props[k] == old(mod.props)[k]
      ensures r.Ok? ==> forall k :: k in mod.props && IsFunction(old(mod.props)[k]) ==>
                          && mod.props[k].MockFunction?
                          && fresh(mod.props[k].mock)
                          && mod.props[k].mock.moduleName == moduleName
                          && mod.props[k].mock.functionName == k
                          && mod.props[k].mock.State() == Unscheduled
    {
      if modulePath in wasMocked {
        return Err(AlreadyStubbed(modulePath));
      }
      wasMocked := wasMocked + {modulePath};
      var names := set k | k in mod.props && IsFunction(mod.props[k]);
      var todo := names;
      while todo != {}
        invariant todo <= names
        invariant wasMocked == old(wasMocked) + {modulePath}
        invariant mod.props.Keys == old(mod.props).Keys
        invariant forall k :: k in mod.props && (k in todo || k !in names) ==> mod.props[k] == old(mod.props)[k]
        invariant forall k :: k in names && k !in todo ==>
                    && mod.props[k].MockFunction?
                    && fresh(mod.props[k].mock)
                    && mod.props[k].mock.moduleName == moduleName
                    && mod.props[k].mock.functionName == k
                    && mod.props[k].mock.State() == Unscheduled
        decreases todo
      {
        var name :| name in todo;
        var m := new Mock(moduleName, name);
        mod.props := mod.props[name := MockFunction(m)];
        todo := todo - {name};
      }
      r := Ok(mod);
    }
  }

  /** The mocks among the function properties of the given modules. */
  function MocksOf(modules: seq<Module>): set<Mock>
    reads modules
  {
    set mo, k | mo in modules && k in mo.props && mo.props[k].MockFunction? :: mo.props[k].mock
  }

  /**
   * Module-level `reset(...modules)`: resets every mock among the function
   * properties of every given module; other properties are left alone.
   */
  method ResetModules(modules: seq<Module>)
    modifies MocksOf(modules)
    ensures forall m :: m in MocksOf(modules) ==> m.State() == Unscheduled
  {
    for i := 0 to |modules|
      invariant forall j, k :: 0 <= j < i && k in modules[j].props && modules[j].props[k].MockFunction? ==>
                  modules[j].props[k].mock.State() == Unscheduled
    {
      var mo := modules[i];
      var todo := set k | k in mo.props && IsFunction(mo.props[k]);
      while todo != {}
        invariant todo <= mo.props.Keys
        invariant forall j, k :: 0 <= j < i && k in modules[j].props && modules[j].props[k].MockFunction? ==>
                    modules[j].props[k].mock.State() == Unscheduled
        invariant forall k :: k in mo.props && k !in todo && mo.props[k].MockFunction? ==>
                    mo.props[k].mock.State() == Unscheduled
        decreases todo
      {
        var name :| name in todo;
        todo := todo - {name};
        if mo.props[name].MockFunction? {
          var _ := mo.props[name].mock.Reset();
        }
      }
    }
  }
}

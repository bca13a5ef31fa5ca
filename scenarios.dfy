/**
 * Client code in the shape of the engine's test suite: each method builds a
 * fresh engine and mock, drives them through the public operations, and
 * states what the calls return.
 */
module Scenarios {
  import opened Wrappers
  import opened MockEasyErrors
  import opened Outcomes
  import opened Schedule
  import opened Mockeasy

  /** The callback's result reaches the caller, and with it the arguments reach the callback. */
  method ArgumentsForwarded<V>(moduleName: string, funcName: string, a: nat, args: seq<V>,
                               run: (nat, seq<V>) -> Outcome<V>) returns (r: Completion<V>)
    ensures r == Deliver(run(a, args), false)
  {
    var engine := new Engine();
    var _ := engine.IgnoreFatalErrors();
    var mock := new Mock(moduleName, funcName);
    var _ := mock.Always(User(a));
    r := mock.Invoke(engine, args, run);
  }

  /** `times(a, 2)`: two invocations run a, the third is not defined. */
  method TimesTwiceThenNotDefined<V>(moduleName: string, funcName: string, a: nat, args: seq<V>,
                                     run: (nat, seq<V>) -> Outcome<V>) returns (r1: Completion<V>, r2: Completion<V>, r3: Completion<V>)
    ensures r1 == Deliver(run(a, args), false) && r2 == r1
    ensures r3 == Raise(EngineError(Create(NOT_DEFINED, moduleName, funcName)))
  {
    var engine := new Engine();
    var _ := engine.IgnoreFatalErrors();
    var mock := new Mock(moduleName, funcName);
    var _ := mock.Times(User(a), Finite(2));
    r1 := mock.Invoke(engine, args, run);
    r2 := mock.Invoke(engine, args, run);
    r3 := mock.Invoke(engine, args, run);
  }

  /** `once(a).always(b)`: a first, then b on every later invocation. */
  method OnceThenAlways<V>(moduleName: string, funcName: string, a: nat, b: nat, args: seq<V>,
                           run: (nat, seq<V>) -> Outcome<V>) returns (r1: Completion<V>, r2: Completion<V>, r3: Completion<V>)
    ensures r1 == Deliver(run(a, args), false)
    ensures r2 == Deliver(run(b, args), false) && r3 == r2
  {
    var engine := new Engine();
    var _ := engine.IgnoreFatalErrors();
    var mock := new Mock(moduleName, funcName);
    var _ := mock.Once(User(a));
    var _ := mock.Always(User(b));
    r1 := mock.Invoke(engine, args, run);
    r2 := mock.Invoke(engine, args, run);
    r3 := mock.Invoke(engine, args, run);
  }

  /** After `always`, scheduling with `once` is rejected as unreachable. */
  method AlwaysLocks(moduleName: string, funcName: string, a: nat, b: nat) returns (r: Result<Mock, MockEasyError>)
    ensures r == Err(Create(INVOCATION_WILL_NEVER_BE_REACHED, moduleName, funcName))
  {
    var mock := new Mock(moduleName, funcName);
    var _ := mock.Always(User(a));
    r := mock.Once(User(b));
  }

  /** `times(a, 0)` and `times(a, -1)` are rejected; `times(a, 1)` is not. */
  method CountBelowOneRejected(moduleName: string, funcName: string, a: nat)
    returns (zero: Result<Mock, MockEasyError>, negative: Result<Mock, MockEasyError>, one: Result<Mock, MockEasyError>)
    ensures zero == negative == Err(Create(INCORRECT_TIME_DEFINITION, moduleName, funcName))
    ensures one.Ok?
  {
    var mock := new Mock(moduleName, funcName);
    zero := mock.Times(User(a), Finite(0));
    negative := mock.Times(User(a), Finite(-1));
    one := mock.Times(User(a), Finite(1));
  }

  /** After `never()`, an invocation is an illegal invocation. */
  method NeverRejectsInvocation<V>(moduleName: string, funcName: string, args: seq<V>,
                                   run: (nat, seq<V>) -> Outcome<V>) returns (r: Completion<V>)
    ensures r == Raise(EngineError(Create(ILLEGAL_INVOCATION, moduleName, funcName)))
  {
    var engine := new Engine();
    var _ := engine.IgnoreFatalErrors();
    var mock := new Mock(moduleName, funcName);
    var _ := mock.Never();
    r := mock.Invoke(engine, args, run);
  }

  /** `always(a).reset()`: the next invocation is not defined. */
  method ResetForgetsSchedule<V>(moduleName: string, funcName: string, a: nat, args: seq<V>,
                                 run: (nat, seq<V>) -> Outcome<V>) returns (r: Completion<V>)
    ensures r == Raise(EngineError(Create(NOT_DEFINED, moduleName, funcName)))
  {
    var engine := new Engine();
    var _ := engine.IgnoreFatalErrors();
    var mock := new Mock(moduleName, funcName);
    var _ := mock.Always(User(a));
    var _ := mock.Reset();
    r := mock.Invoke(engine, args, run);
  }

  /** Under the default policy, invoking an unscheduled mock ends the process with 999. */
  method DefaultPolicyExits<V>(moduleName: string, funcName: string, args: seq<V>,
                               run: (nat, seq<V>) -> Outcome<V>) returns (r: Completion<V>)
    ensures r == Exit(999)
  {
    var engine := new Engine();
    var mock := new Mock(moduleName, funcName);
    r := mock.Invoke(engine, args, run);
  }

  /** Stubbing one path twice: the second attempt is rejected. */
  method StubTwiceRejected(props: map<string, Prop>, modulePath: string, moduleName: string)
    returns (first: Result<Module, string>, second: Result<Module, string>)
    ensures first.Ok?
    ensures second == Err(AlreadyStubbed(modulePath))
  {
    var engine := new Engine();
    var mod := new Module(props);
    first := engine.Stub(mod, modulePath, moduleName);
    second := engine.Stub(mod, modulePath, moduleName);
  }

  /** Stubs a module whose exports are the two functions `isStub` and `getString`. */
  method StubTwoFunctions(engine: Engine, modulePath: string, moduleName: string)
    returns (mod: Module, isStub: Mock, getString: Mock)
    requires modulePath !in engine.wasMocked
    modifies engine`wasMocked
    ensures fresh(mod) && fresh(isStub) && fresh(getString)
    ensures mod.props == map["isStub" := MockFunction(isStub), "getString" := MockFunction(getString)]
    ensures isStub.moduleName == moduleName && isStub.functionName == "isStub"
    ensures getString.moduleName == moduleName && getString.functionName == "getString"
    ensures isStub.State() == Unscheduled && getString.State() == Unscheduled
  {
    mod := new Module(map["isStub" := PlainFunction(0), "getString" := PlainFunction(1)]);
    ghost var before := mod.props;
    var _ := engine.Stub(mod, modulePath, moduleName);
    assert IsFunction(before["isStub"]) && IsFunction(before["getString"]);
    isStub := mod.props["isStub"].mock;
    getString := mod.props["getString"].mock;
    assert mod.props == map["isStub" := MockFunction(isStub), "getString" := MockFunction(getString)];
  }

  /**
   * A stubbed module with two functions, one scheduled with `always` and one
   * with `once`: after module-level `reset`, both invocations are not defined.
   */
  method ResetModuleClearsAll<V>(modulePath: string, moduleName: string, a: nat, b: nat, args: seq<V>,
                                 run: (nat, seq<V>) -> Outcome<V>) returns (r1: Completion<V>, r2: Completion<V>)
    ensures r1 == Raise(EngineError(Create(NOT_DEFINED, moduleName, "isStub")))
    ensures r2 == Raise(EngineError(Create(NOT_DEFINED, moduleName, "getString")))
  {
    var engine := new Engine();
    var _ := engine.IgnoreFatalErrors();
    var mod, isStub, getString := StubTwoFunctions(engine, modulePath, moduleName);
    var _ := isStub.Always(User(a));
    var _ := getString.Once(User(b));
    assert mod in [mod] && mod.props["isStub"].mock == isStub && mod.props["getString"].mock == getString;
    ResetModules([mod]);
    r1 := isStub.Invoke(engine, args, run);
    r2 := getString.Invoke(engine, args, run);
  }
}

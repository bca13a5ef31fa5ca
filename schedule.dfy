/**
 * The state machine of one mock, as values: its queue of scheduled
 * behaviours and its `alwaysOn` lock, what one invocation does to them,
 * what `times` does to them, and the order in which invocations are served.
 */
module Schedule {
  import opened Wrappers
  import opened MockEasyErrors
  import opened Outcomes

  /** A remaining-use count: a number of uses, or the unbounded tag that stands for Infinity. */
  datatype Count = Finite(n: int) | Unbounded

  /** One scheduled behaviour: `{times, callback}`. */
  datatype Action = Action(times: Count, callback: Callback)

  /** The closure state of a mock. */
  datatype State = State(queue: seq<Action>, alwaysOn: bool)

  /** The state of a fresh or reset mock: nothing scheduled, not locked. */
  const Unscheduled: State := State([], false)

  function Last(q: seq<Action>): Action
    requires q != []
  {
    q[|q| - 1]
  }

  /** An entry still in the queue has a use left. */
  predicate Live(a: Action) {
    a.times.Unbounded? || a.times.n >= 1
  }

  /**
   * The invariant every reachable state keeps: every entry has a use left,
   * only the last entry can be unbounded, and the lock is set exactly when
   * the last entry is unbounded.
   */
  predicate Valid(s: State) {
    && (forall i :: 0 <= i < |s.queue| ==> Live(s.queue[i]))
    && (forall i :: 0 <= i < |s.queue| - 1 ==> s.queue[i].times.Finite?)
    && (s.alwaysOn <==> s.queue != [] && Last(s.queue).times.Unbounded?)
  }

  /** `times--` on a count; Infinity minus one is Infinity. */
  function Decrement(c: Count): Count {
    match c
    case Finite(n) => Finite(n - 1)
    case Unbounded => Unbounded
  }

  /**
   * The queue after the head entry is used once: its count goes down by one,
   * and it is removed exactly when the count reaches zero.
   */
  function Consume(q: seq<Action>): (r: seq<Action>)
    requires q != []
    ensures q[0].times == Finite(1) ==> r == q[1..]
    ensures q[0].times != Finite(1) ==>
              |r| == |q| && r[0] == Action(Decrement(q[0].times), q[0].callback) && r[1..] == q[1..]
    ensures q[0].times.Unbounded? ==> r == q
  {
    var head := q[0].(times := Decrement(q[0].times));
    if head.times == Finite(0) then q[1..] else [head] + q[1..]
  }

  /** The callback the next invocation runs, if any is scheduled. */
  function Selected(s: State): Option<Callback> {
    if s.queue == [] then None else Some(s.queue[0].callback)
  }

  /** The state after one invocation. An empty queue is left as it is. */
  function Advance(s: State): (r: State)
    ensures r.alwaysOn == s.alwaysOn
    ensures s.queue == [] ==> r == s
    ensures Valid(s) ==> Valid(r)
  {
    if s.queue == [] then s else s.(queue := Consume(s.queue))
  }

  /** The state after `k` invocations. */
  function Run(s: State, k: nat): State
    decreases k
  {
    if k == 0 then s else Run(Advance(s), k - 1)
  }

  /**
   * What an invocation in state `s` of the mock for `moduleName.funcName`
   * returns: not-defined on an empty queue, otherwise the head callback's
   * outcome on the same arguments; failures go through the error handler.
   */
  function Respond<V>(s: State, args: seq<V>, run: (nat, seq<V>) -> Outcome<V>,
                      exitOnFatalError: bool, moduleName: string, funcName: string): (r: Completion<V>)
    ensures s.queue == [] ==>
              r == Escalate(EngineError(Create(NOT_DEFINED, moduleName, funcName)), exitOnFatalError)
    ensures s.queue != [] ==> r == Deliver(RunCallback(s.queue[0].callback, args, run), exitOnFatalError)
  {
    match Selected(s)
    case None => Escalate(EngineError(Create(NOT_DEFINED, moduleName, funcName)), exitOnFatalError)
    case Some(cb) => Deliver(RunCallback(cb, args, run), exitOnFatalError)
  }

  /**
   * `times(callback, count)`: rejected when locked, then rejected when the
   * count is below one; otherwise one entry is appended and the lock is set
   * exactly when the count is unbounded.
   */
  function TimesStep(s: State, cb: Callback, count: Count, moduleName: string, funcName: string)
    : (r: Result<State, MockEasyError>)
    ensures r.Err? <==> s.alwaysOn || (count.Finite? && count.n < 1)
    ensures s.alwaysOn ==> r == Err(Create(INVOCATION_WILL_NEVER_BE_REACHED, moduleName, funcName))
    ensures !s.alwaysOn && count.Finite? && count.n < 1 ==>
              r == Err(Create(INCORRECT_TIME_DEFINITION, moduleName, funcName))
    ensures r.Ok? ==> r.value.queue == s.queue + [Action(count, cb)] && r.value.alwaysOn == count.Unbounded?
    ensures r.Ok? && Valid(s) ==> Valid(r.value)
  {
    if s.alwaysOn then
      Err(Create(INVOCATION_WILL_NEVER_BE_REACHED, moduleName, funcName))
    else if count.Finite? && count.n < 1 then
      Err(Create(INCORRECT_TIME_DEFINITION, moduleName, funcName))
    else
      Ok(State(s.queue + [Action(count, cb)], count.Unbounded?))
  }

  /**
   * Reference definition of the schedule: the callback that the `k`-th
   * invocation (counting from 0) of a queue serves, read off the counts
   * without simulating the queue; None means not-defined.
   */
  function ServedAt(q: seq<Action>, k: nat): Option<Callback>
    decreases |q|
  {
    if q == [] then None
    else match q[0].times
      case Unbounded => Some(q[0].callback)
      case Finite(n) => if k < n then Some(q[0].callback) else ServedAt(q[1..], k - n)
  }

  /** The number of uses the finite entries of a queue hold. */
  function FiniteUses(q: seq<Action>): int
    decreases |q|
  {
    if q == [] then 0
    else (match q[0].times case Finite(n) => n case Unbounded => 0) + FiniteUses(q[1..])
  }

  /** The state with the head entry gone, as the reference schedule sees the rest. */
  function DropHead(s: State): State
    requires s.queue != []
  {
    State(s.queue[1..], s.alwaysOn && |s.queue| > 1)
  }

  lemma DropHeadValid(s: State)
    requires Valid(s) && s.queue != []
    ensures Valid(DropHead(s))
  {
  }

  /** One invocation shifts the schedule by one. */
  lemma ServedAfterAdvance(s: State, k: nat)
    requires Valid(s)
    ensures ServedAt(Advance(s).queue, k) == ServedAt(s.queue, k + 1)
  {
  }

  /**
   * FIFO consumption: the `k`-th invocation runs exactly the callback the
   * reference schedule assigns to it.
   */
  lemma {:induction false} ServedInOrder(s: State, k: nat)
    requires Valid(s)
    ensures Selected(Run(s, k)) == ServedAt(s.queue, k)
    decreases k
  {
    if k == 0 {
      if s.queue != [] {
        assert Live(s.queue[0]);
      }
    } else {
      ServedInOrder(Advance(s), k - 1);
      ServedAfterAdvance(s, k - 1);
    }
  }

  /** The lock stays set, and the invariant holds, however many invocations follow. */
  lemma {:induction false} RunKeepsLock(s: State, k: nat)
    requires Valid(s)
    ensures Run(s, k).alwaysOn == s.alwaysOn
    ensures Valid(Run(s, k))
    decreases k
  {
    if k > 0 {
      RunKeepsLock(Advance(s), k - 1);
    }
  }

  /**
   * Without the lock, all entries are finite and the schedule runs out
   * exactly after as many invocations as the counts add up to.
   */
  lemma {:induction false} FiniteScheduleExhausts(s: State, k: nat)
    requires Valid(s) && !s.alwaysOn
    ensures ServedAt(s.queue, k) == None <==> k >= FiniteUses(s.queue)
    decreases |s.queue|
  {
    if s.queue != [] {
      var q := s.queue;
      assert Live(q[0]) && q[0].times.Finite?;
      var rest := DropHead(s);
      DropHeadValid(s);
      if k >= q[0].times.n {
        FiniteScheduleExhausts(rest, k - q[0].times.n);
      } else {
        FiniteUsesNonNegative(rest);
      }
    }
  }

  lemma {:induction false} FiniteUsesNonNegative(s: State)
    requires Valid(s)
    ensures FiniteUses(s.queue) >= 0
    decreases |s.queue|
  {
    if s.queue != [] {
      assert Live(s.queue[0]);
      var rest := DropHead(s);
      DropHeadValid(s);
      FiniteUsesNonNegative(rest);
    }
  }

  /**
   * With the lock set, no invocation is ever not-defined, and once the finite
   * entries are used up the unbounded last entry serves every invocation.
   */
  lemma {:induction false} LockedScheduleNeverRunsOut(s: State, k: nat)
    requires Valid(s) && s.alwaysOn
    ensures ServedAt(s.queue, k) != None
    ensures k >= FiniteUses(s.queue) ==> ServedAt(s.queue, k) == Some(Last(s.queue).callback)
    decreases |s.queue|
  {
    var q := s.queue;
    assert Live(q[0]);
    if |q| > 1 {
      assert q[0].times.Finite?;
      var rest := DropHead(s);
      DropHeadValid(s);
      FiniteUsesNonNegative(rest);
      if k >= q[0].times.n {
        LockedScheduleNeverRunsOut(rest, k - q[0].times.n);
      }
    }
  }
  lemma {:induction false} FiniteUsesIgnoresUnbounded(q: seq<Action>, cb: Callback)
    ensures FiniteUses(q + [Action(Unbounded, cb)]) == FiniteUses(q)
    decreases |q|
  {
    if q != [] {
      assert (q + [Action(Unbounded, cb)])[1..] == q[1..] + [Action(Unbounded, cb)];
      FiniteUsesIgnoresUnbounded(q[1..], cb);
    } else {
      assert [Action(Unbounded, cb)][1..] == [];
    }
  }

  /** `times(cb, n)` on an unscheduled mock serves `cb` to exactly the next `n` invocations. */
  lemma TimesThenExhausted(cb: Callback, n: int, moduleName: string, funcName: string, k: nat)
    requires n >= 1
    ensures TimesStep(Unscheduled, cb, Finite(n), moduleName, funcName).Ok?
    ensures var s := TimesStep(Unscheduled, cb, Finite(n), moduleName, funcName).value;
            (k < n ==> Selected(Run(s, k)) == Some(cb)) && (k >= n ==> Run(s, k).queue == [])
  {
    var s := TimesStep(Unscheduled, cb, Finite(n), moduleName, funcName).value;
    ServedInOrder(s, k);
    assert s.queue[1..] == [];
  }

  /** `once(a).always(b)` on an unscheduled mock: the first invocation runs a, every later one b. */
  lemma OnceThenAlwaysOrder(a: Callback, b: Callback, moduleName: string, funcName: string, k: nat)
    ensures TimesStep(Unscheduled, a, Finite(1), moduleName, funcName).Ok?
    ensures var s1 := TimesStep(Unscheduled, a, Finite(1), moduleName, funcName).value;
            TimesStep(s1, b, Unbounded, moduleName, funcName).Ok?
    ensures var s1 := TimesStep(Unscheduled, a, Finite(1), moduleName, funcName).value;
            var s2 := TimesStep(s1, b, Unbounded, moduleName, funcName).value;
            Selected(Run(s2, k)) == Some(if k == 0 then a else b)
  {
    var s1 := TimesStep(Unscheduled, a, Finite(1), moduleName, funcName).value;
    var s2 := TimesStep(s1, b, Unbounded, moduleName, funcName).value;
    ServedInOrder(s2, k);
    assert s2.queue[1..] == [Action(Unbounded, b)];
  }

  /**
   * After `never()`, once the entries scheduled before it are used up, every
   * invocation, with any arguments, meets an illegal-invocation error.
   */
  lemma NeverForbidsInvocation<V>(s: State, moduleName: string, funcName: string, k: nat,
                                  args: seq<V>, run: (nat, seq<V>) -> Outcome<V>, exitOnFatalError: bool)
    requires Valid(s)
    requires TimesStep(s, Never(moduleName, funcName), Unbounded, moduleName, funcName).Ok?
    requires k >= FiniteUses(s.queue)
    ensures var s' := TimesStep(s, Never(moduleName, funcName), Unbounded, moduleName, funcName).value;
            Respond(Run(s', k), args, run, exitOnFatalError, moduleName, funcName)
            == Escalate(EngineError(Create(ILLEGAL_INVOCATION, moduleName, funcName)), exitOnFatalError)
  {
    var cb := Never(moduleName, funcName);
    var s' := TimesStep(s, cb, Unbounded, moduleName, funcName).value;
    FiniteUsesIgnoresUnbounded(s.queue, cb);
    LockedScheduleNeverRunsOut(s', k);
    ServedInOrder(s', k);
  }
}

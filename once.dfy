/** The one-shot gate `once(fn)`: the returned function invokes `fn` until one
    invocation returns, then hands back that first result on every later
    call without invoking `fn` again. */
module OnceUtil {
  import opened Results

  const NotAFunctionMessage := "Input parameter must be a function"

  /** The wrapped function as its caller sees it. Its `n`-th invocation
      (counting from 0) with arguments `args` returns or throws
      `behaviour(n, args)`, so a function with hidden state of its own, such
      as a counter, is expressible; `calls` logs the arguments of every
      invocation. */
  class Callee<A, T> {
    const behaviour: (nat, seq<A>) -> Result<T>
    var calls: seq<seq<A>>

    constructor (behaviour: (nat, seq<A>) -> Result<T>)
      ensures this.behaviour == behaviour && calls == []
    {
      this.behaviour := behaviour;
      calls := [];
    }

    method Invoke(args: seq<A>) returns (r: Result<T>)
      modifies this
      ensures calls == old(calls) + [args]
      ensures r == behaviour(|old(calls)|, args)
    {
      r := behaviour(|calls|, args);
      calls := calls + [args];
    }
  }

  // ---------------------------------------------------------------------------
  // The gate as a value: the two captured variables and one call.

  datatype Gate<T> = Gate(executed: bool, result: Option<T>)

  /** `result` holds a value exactly when `executed` is set: both are assigned
      only after an invocation that returned. */
  predicate Settled<T>(g: Gate<T>) {
    g.executed <==> g.result.Some?
  }

  /** One call of the returned function, where `response` is what the wrapped
      function does if it is invoked by this call. */
  function Step<T>(g: Gate<T>, response: Result<T>): (out: (Gate<T>, Result<T>))
    requires Settled(g)
    ensures Settled(out.0)
  {
    if g.executed then (g, Ok(g.result.value))
    else if response.Ok? then (Gate(true, Some(response.value)), response)
    else (g, response)
  }

  /** Successive calls, the `i`-th answered by `responses[i]` if it invokes
      the wrapped function: the final gate and every call's result. */
  function Run<T>(g: Gate<T>, responses: seq<Result<T>>): (out: (Gate<T>, seq<Result<T>>))
    requires Settled(g)
    ensures Settled(out.0) && |out.1| == |responses|
    decreases |responses|
  {
    if responses == [] then (g, [])
    else
      var (g', r) := Step(g, responses[0]);
      var (last, rs) := Run(g', responses[1..]);
      (last, [r] + rs)
  }

  /** How many of those calls invoke the wrapped function. */
  function Invocations<T>(g: Gate<T>, responses: seq<Result<T>>): (n: nat)
    requires Settled(g)
    ensures n <= |responses|
    decreases |responses|
  {
    if responses == [] then 0
    else (if g.executed then 0 else 1) + Invocations(Step(g, responses[0]).0, responses[1..])
  }

  /** Once executed, the gate never changes, never invokes the wrapped
      function, and answers every call with the cached result. */
  lemma {:induction false} ExecutedIsFinal<T>(g: Gate<T>, responses: seq<Result<T>>)
    requires Settled(g) && g.executed
    ensures Run(g, responses).0 == g
    ensures forall j :: 0 <= j < |responses| ==> Run(g, responses).1[j] == Ok(g.result.value)
    ensures Invocations(g, responses) == 0
    decreases |responses|
  {
    if responses != [] {
      ExecutedIsFinal(g, responses[1..]);
    }
  }

  /** While nothing has returned yet, every call invokes the wrapped function
      and passes its failure on, leaving the gate as it was. */
  lemma {:induction false} FailuresAreNotCached<T>(g: Gate<T>, responses: seq<Result<T>>)
    requires Settled(g) && !g.executed
    requires forall j :: 0 <= j < |responses| ==> responses[j].Err?
    ensures Run(g, responses) == (g, responses)
    ensures Invocations(g, responses) == |responses|
    decreases |responses|
  {
    if responses != [] {
      assert responses[1..][0..] == responses[1..];
      FailuresAreNotCached(g, responses[1..]);
      assert [responses[0]] + responses[1..] == responses;
    }
  }

  /** From a gate that has not executed: the calls up to and including the
      first one whose invocation returns (index `i`) invoke the wrapped
      function; that call's value becomes the cached result, which every
      later call returns without invoking it. */
  lemma {:induction false} FirstSuccessIsCached<T>(g: Gate<T>, responses: seq<Result<T>>, i: nat)
    requires Settled(g) && !g.executed
    requires i < |responses| && responses[i].Ok?
    requires forall j :: 0 <= j < i ==> responses[j].Err?
    ensures Run(g, responses).0 == Gate(true, Some(responses[i].value))
    ensures forall j :: 0 <= j <= i ==> Run(g, responses).1[j] == responses[j]
    ensures forall j :: i < j < |responses| ==> Run(g, responses).1[j] == responses[i]
    ensures Invocations(g, responses) == i + 1
    decreases |responses|
  {
    var (g', r) := Step(g, responses[0]);
    if i == 0 {
      ExecutedIsFinal(g', responses[1..]);
    } else {
      assert g' == g;
      FirstSuccessIsCached(g', responses[1..], i - 1);
    }
  }

  // ---------------------------------------------------------------------------
  // The returned function, with its captured variables as fields.

  class OnceFunc<A, T> {
    const fn: Callee<A, T>
    var executed: bool
    var result: Option<T>

    function State(): (g: Gate<T>)
      reads this
    {
      Gate(executed, result)
    }

    ghost predicate Valid()
      reads this
    {
      Settled(State())
    }

    constructor (fn: Callee<A, T>)
      ensures Valid() && this.fn == fn
      ensures !executed && result == None
    {
      this.fn := fn;
      executed := false;
      result := None;
    }

    /** One call of `onceFunc(...args)`. */
    method Call(args: seq<A>) returns (r: Result<T>)
      requires Valid()
      modifies this, fn
      ensures Valid()
      ensures (State(), r) == Step(old(State()), fn.behaviour(|old(fn.calls)|, args))
      ensures old(executed) ==> r == Ok(old(result).value) && executed && result == old(result)
      ensures old(executed) ==> fn.calls == old(fn.calls)
      ensures !old(executed) ==> fn.calls == old(fn.calls) + [args] && r == fn.behaviour(|old(fn.calls)|, args)
      ensures !old(executed) ==> (executed <==> r.Ok?) && (r.Ok? ==> result == Some(r.value))
      ensures !old(executed) && r.Err? ==> result == old(result)
    {
      if executed {
        return Ok(result.value);
      }
      var out := fn.Invoke(args);
      if out.Err? {
        return out;
      }
      result := Some(out.value);
      executed := true;
      r := Ok(result.value);
    }
  }

  /** What `once` may be given: a function, or any other value. */
  datatype Argument<A, T> = Function(callee: Callee<A, T>) | NotAFunction

  /** `once(fn)`: refuses anything but a function, and otherwise returns a
      fresh gate that has not executed. */
  method Once<A, T>(arg: Argument<A, T>) returns (r: Result<OnceFunc<A, T>>)
    ensures arg.NotAFunction? ==> r == Err(TypeError(NotAFunctionMessage))
    ensures arg.Function? ==> r.Ok? && fresh(r.value) && r.value.Valid() && r.value.fn == arg.callee
    ensures arg.Function? ==> !r.value.executed && r.value.result == None
  {
    if arg.NotAFunction? {
      return Err(TypeError(NotAFunctionMessage));
    }
    var f := new OnceFunc(arg.callee);
    r := Ok(f);
  }

  /** `once` given a plain object instead of a function. */
  method OnceRejectsNonFunction() returns (r: Result<OnceFunc<int, int>>)
    ensures r.Err? && r.error.TypeError? && r.error.message == NotAFunctionMessage
  {
    r := Once(NotAFunction);
  }

  /** A counter wrapped in `once`: two calls both give 1, and the counter
      runs once. */
  method OnceIncrement() returns (first: Result<int>, second: Result<int>, invocations: nat)
    ensures first == Ok(1) && second == Ok(1) && invocations == 1
  {
    var increment := new Callee<int, int>((n: nat, args: seq<int>) => Ok(n + 1));
    var made := Once(Function(increment));
    var onceIncrement := made.value;
    first := onceIncrement.Call([]);
    second := onceIncrement.Call([]);
    invocations := |increment.calls|;
  }

  /** A wrapped function that fails on its first invocation: the failure is
      passed on, the next call invokes it again, and its first value is then
      cached. */
  method OnceRetriesAfterFailure(x: int) returns (first: Result<int>, second: Result<int>, third: Result<int>, invocations: nat)
    ensures first.Err? && second == Ok(x) && third == Ok(x) && invocations == 2
  {
    var flaky := new Callee<int, int>((n: nat, args: seq<int>) => if n == 0 then Err(CalleeError("unavailable")) else Ok(x));
    var made := Once(Function(flaky));
    var gate := made.value;
    first := gate.Call([]);
    second := gate.Call([1]);
    third := gate.Call([2]);
    invocations := |flaky.calls|;
  }
}

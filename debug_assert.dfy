/**
 * The check-and-report guards `DebugAssert` and `DebugAssertWithoutAbort`.
 *
 * A guarded expression is any computation that may change the program's state, so it is
 * modelled as a function `op` from a state to its value and the state after it; evaluating
 * the expression once is applying `op` once.  The reports go to
 * `DebugAssert::Assert` / `DebugAssert::AssertWithoutBreaking`, whose bodies are not part of
 * this model: a guard's outcome records which of the two it calls and with what arguments.
 */
module DebugAssert {
  import opened Wrappers

  const IntModulus: int := 0x1_0000_0000
  const IntMin: int := -0x8000_0000
  const IntMax: int := 0x7FFF_FFFF

  /** The `(int)` conversion on a 32-bit two's-complement target: values wrap modulo 2^32. */
  function CastToInt(v: int): (r: int)
    ensures IntMin <= r <= IntMax
    ensures (v - r) % IntModulus == 0
  {
    (v - IntMin) % IntModulus + IntMin
  }

  /** A value that already fits an `int` is left unchanged by the conversion. */
  lemma CastToIntKeepsInts(v: int)
    requires IntMin <= v <= IntMax
    ensures CastToInt(v) == v
  {
    assert 0 <= v - IntMin < IntModulus;
  }

  /** Two values convert to the same `int` exactly when they agree modulo 2^32. */
  lemma CastToIntCongruent(u: int, v: int)
    ensures CastToInt(u) == CastToInt(v) <==> (u - v) % IntModulus == 0
  {
    var a, b := (u - IntMin) % IntModulus, (v - IntMin) % IntModulus;
    var p, q := (u - IntMin) / IntModulus, (v - IntMin) / IntModulus;
    assert u - v == a - b + (p - q) * IntModulus;
    if (u - v) % IntModulus == 0 {
      var m := (u - v) / IntModulus;
      assert a - b == (m - p + q) * IntModulus;
      assert a == b;
    }
  }

  /**
   * The name passed as the reporting function: a `__ASSERT_FUNC` the environment already
   * defines, else the C library's `__ASSERT_FUNCTION`, else the placeholder "??".
   */
  function AssertFunc(predefined: Option<string>, assertFunction: Option<string>): (name: string)
    ensures predefined.Some? ==> name == predefined.value
    ensures predefined.None? && assertFunction.Some? ==> name == assertFunction.value
    ensures predefined.None? && assertFunction.None? ==> name == "??"
  {
    match predefined
    case Some(f) => f
    case None =>
      match assertFunction
      case Some(f) => f
      case None => "??"
  }

  /** Where a guard sits: `__FILE__`, `__LINE__`, `__ASSERT_FUNC` and the stringified expression. */
  datatype Site = Site(file: string, line: nat, func: string, expression: string)

  /** The two reporting entry points of `Middleware::DebugAssert`. */
  datatype Handler = Assert | AssertWithoutBreaking

  /** Outcome of one guard: nothing reported, or one report with the observed code. */
  datatype Check = Match | Mismatch(handler: Handler, rc: int, site: Site)

  /** The guard shared by both macros: one evaluation, one `int` conversion, one exact comparison. */
  function Guard<S>(handler: Handler, op: S -> (int, S), state: S, expected: int, site: Site): (r: (Check, int, S))
    ensures r.2 == op(state).1
    ensures r.1 == CastToInt(op(state).0)
    ensures r.0 == Match <==> r.1 == expected
    ensures r.0.Mismatch? ==> r.0 == Mismatch(handler, r.1, site)
  {
    var (value, after) := op(state);
    var rc := CastToInt(value);
    if rc != expected then (Mismatch(handler, rc, site), rc, after) else (Match, rc, after)
  }

  /** `DebugAssert(function, result)` in a debug build: a statement, reporting through `Assert`. */
  function DebugAssert<S>(op: S -> (int, S), state: S, expected: int, site: Site): (r: (Check, S))
    ensures r.1 == op(state).1
    ensures r.0 == Match <==> CastToInt(op(state).0) == expected
    ensures r.0.Mismatch? ==> r.0 == Mismatch(Assert, CastToInt(op(state).0), site)
  {
    var (check, _, after) := Guard(Assert, op, state, expected, site);
    (check, after)
  }

  /**
   * `DebugAssertWithoutAbort(function, result)` in a debug build: an expression whose value is
   * the observed code, reporting through `AssertWithoutBreaking`.
   */
  function DebugAssertWithoutAbort<S>(op: S -> (int, S), state: S, expected: int, site: Site): (r: (Check, int, S))
    ensures r.2 == op(state).1
    ensures r.1 == CastToInt(op(state).0)
    ensures r.0 == Match <==> r.1 == expected
    ensures r.0.Mismatch? ==> r.0 == Mismatch(AssertWithoutBreaking, r.1, site)
  {
    Guard(AssertWithoutBreaking, op, state, expected, site)
  }

  /** Both guards agree on everything but the handler they report through. */
  lemma GuardsAgree<S>(op: S -> (int, S), state: S, expected: int, site: Site)
    ensures DebugAssert(op, state, expected, site).1 == DebugAssertWithoutAbort(op, state, expected, site).2
    ensures DebugAssert(op, state, expected, site).0.Match?
        <==> DebugAssertWithoutAbort(op, state, expected, site).0.Match?
    ensures DebugAssertWithoutAbort(op, state, expected, site).0.Mismatch? ==>
      DebugAssert(op, state, expected, site).0.rc == DebugAssertWithoutAbort(op, state, expected, site).0.rc
  {
  }

  /** A guard around an expression that already yields an `int` reports exactly that value. */
  lemma GuardReportsObservedCode<S>(op: S -> (int, S), state: S, expected: int, site: Site)
    requires IntMin <= op(state).0 <= IntMax
    ensures DebugAssertWithoutAbort(op, state, expected, site).1 == op(state).0
    ensures op(state).0 != expected ==>
      DebugAssertWithoutAbort(op, state, expected, site).0 == Mismatch(AssertWithoutBreaking, op(state).0, site)
  {
    CastToIntKeepsInts(op(state).0);
  }

  /**
   * What a call of one of the macros becomes when `NDEBUG` is defined: the expression
   * evaluated once with no comparison, a preprocessor error for a call with the wrong number of
   * arguments, or a reference to an identifier that nothing declares.
   */
  datatype Release<S> = Evaluates(value: int, state: S) | ArityError(given: nat, takes: nat) | UndefinedName(name: string)

  /** `#define DebugAssert(function) function`, applied to a call site with `args` arguments. */
  function ReleaseDebugAssertAsWritten<S>(op: S -> (int, S), state: S, args: nat): (r: Release<S>)
    ensures r.Evaluates? <==> args == 1
    ensures r.Evaluates? ==> r == Evaluates(op(state).0, op(state).1)
  {
    if args != 1 then ArityError(args, 1) else Evaluates(op(state).0, op(state).1)
  }

  /** `#define DebugAssertWithoutAbort(x) function`: the body names `function`, not the parameter `x`. */
  function ReleaseWithoutAbortAsWritten<S>(op: S -> (int, S), state: S, args: nat): (r: Release<S>)
    ensures !r.Evaluates?
  {
    if args != 1 then ArityError(args, 1) else UndefinedName("function")
  }

  /** The call sites use the two-argument debug form, which neither release macro accepts. */
  lemma ReleaseFormsRejectDebugCalls<S>(op: S -> (int, S), state: S)
    ensures ReleaseDebugAssertAsWritten(op, state, 2) == ArityError(2, 1)
    ensures ReleaseWithoutAbortAsWritten(op, state, 2) == ArityError(2, 1)
    ensures ReleaseWithoutAbortAsWritten(op, state, 1) == UndefinedName("function")
  {
  }

  /** Release form of `DebugAssert(function, result)`: the expression alone, evaluated once. */
  function ReleaseDebugAssert<S>(op: S -> (int, S), state: S, expected: int): (r: S)
    ensures r == DebugAssert(op, state, expected, Site("", 0, "", "")).1
  {
    op(state).1
  }

  /** Release form of `DebugAssertWithoutAbort(function, result)`: the converted value, unchecked. */
  function ReleaseWithoutAbort<S>(op: S -> (int, S), state: S, expected: int): (r: (int, S))
    ensures r.0 == CastToInt(op(state).0) && r.1 == op(state).1
  {
    (CastToInt(op(state).0), op(state).1)
  }

  /**
   * Removing the checks changes nothing but the reports: a release build leaves the same state
   * and yields the same value as a debug build, at every site.
   */
  lemma ReleaseMatchesDebug<S>(op: S -> (int, S), state: S, expected: int, site: Site)
    ensures ReleaseDebugAssert(op, state, expected) == DebugAssert(op, state, expected, site).1
    ensures ReleaseWithoutAbort(op, state, expected).0 == DebugAssertWithoutAbort(op, state, expected, site).1
    ensures ReleaseWithoutAbort(op, state, expected).1 == DebugAssertWithoutAbort(op, state, expected, site).2
  {
  }
}

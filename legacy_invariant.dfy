/**
 * The older invariant engine of the `blackbox` package: no predicate kinds and no
 * identity inspectors. A dict predicate is looked up by the args, a 1-parameter
 * callable simulates the expected value, a 2-parameter callable gives its own
 * verdict, and anything else is a constant. `validates` pairs each input with the
 * inspector at the same index.
 */
module LegacyInvariants {
  import opened Wrappers
  import opened PyModel
  import Models
  import Inspector
  import opened Invariants

  /**
   * An inspector of the `blackbox` package, seen only through its `dig`; that
   * package's inspector module is not part of this model.
   */
  type Dig = DryRunProperty -> Result<PyValue, PyError>

  /** An invariant of the older engine; every non-dict, non-callable predicate is a constant. */
  datatype LegacyInvariant = LegacyInvariant(definition: PredicateDef, enforce: bool, name: Option<string>)

  /** The checks `prepare_predicate` makes: only a callable's arity can be wrong. */
  function NewLegacyInvariant(p: PredicateDef, enforce: bool, name: Option<string>): (r: Result<LegacyInvariant, PyError>)
    ensures r.Failure? <==> p.Callable? && p.arity != 1 && p.arity != 2
    ensures r.Failure? ==> r.error.AssertionError?
    ensures r.Success? ==> r.value == LegacyInvariant(p, enforce, name)
  {
    if p.Callable? && p.arity != 1 && p.arity != 2 then
      Failure(AssertionError(WRONG_ARITY + NatToString(p.arity)))
    else Success(LegacyInvariant(p, enforce, name))
  }

  /** The arity was checked at construction. */
  predicate WellFormed(inv: LegacyInvariant) {
    inv.definition.Callable? ==> inv.definition.arity == 1 || inv.definition.arity == 2
  }

  /** The prepared predicate applied to `(args, actual)`. */
  function Verdict(inv: LegacyInvariant, args: seq<PyValue>, actual: PyValue): (r: Result<PyValue, PyError>)
    requires WellFormed(inv)
    ensures inv.definition.CaseDict? ==>
      (r.Failure? <==> args !in inv.definition.cases) &&
      (r.Failure? ==> r.error.KeyError?) &&
      (r.Success? ==> r.value == PyBool(inv.definition.cases[args] == actual))
    ensures inv.definition.Plain? || inv.definition.Sentinel? ==> r == Success(PyBool(ConstantOf(inv.definition) == actual))
    ensures inv.definition.Callable? && inv.definition.arity == 2 ==> r == inv.definition.call([PyTuple(args), actual])
    ensures inv.definition.Callable? && inv.definition.arity == 1 ==>
      (r.Success? <==> inv.definition.call([PyTuple(args)]).Success?) &&
      (r.Success? ==> r.value == PyBool(inv.definition.call([PyTuple(args)]).value == actual))
  {
    match inv.definition
    case CaseDict(d) => if args in d then Success(PyBool(d[args] == actual)) else Failure(KeyError("args"))
    case Callable(n, f) =>
      if n == 2 then f([PyTuple(args), actual])
      else
        var e :- f([PyTuple(args)]);
        Success(PyBool(e == actual))
    case _ => Success(PyBool(ConstantOf(inv.definition) == actual))
  }

  /** What the failure message reports as expected: a value, or for a 2-parameter callable the callable itself. */
  datatype LegacyExpected = Expects(v: PyValue) | ThePredicate

  /** `expected(args)`, as `__call__` uses it once the verdict evaluated. */
  function LegacyExpectedOf(inv: LegacyInvariant, args: seq<PyValue>, actual: PyValue): (e: LegacyExpected)
    requires WellFormed(inv) && Verdict(inv, args, actual).Success?
    ensures inv.definition.CaseDict? ==> args in inv.definition.cases && e == Expects(inv.definition.cases[args])
    ensures inv.definition.Callable? && inv.definition.arity == 2 ==> e == ThePredicate
    ensures inv.definition.Callable? && inv.definition.arity == 1 ==>
      inv.definition.call([PyTuple(args)]).Success? && e == Expects(inv.definition.call([PyTuple(args)]).value)
    ensures inv.definition.Plain? || inv.definition.Sentinel? ==> e == Expects(ConstantOf(inv.definition))
  {
    match inv.definition
    case CaseDict(d) => Expects(d[args])
    case Callable(n, f) => if n == 2 then ThePredicate else Expects(f([PyTuple(args)]).value)
    case _ => Expects(ConstantOf(inv.definition))
  }

  /** The failure message: name, args, actual and expected (the `str` renderings are not modelled). */
  datatype LegacyReport = LegacyReport(name: Option<string>, args: seq<PyValue>, actual: PyValue, expected: LegacyExpected)

  /** `__call__`: no message on success, a report on failure, an AssertionError when enforced. */
  function LegacyCall(inv: LegacyInvariant, args: seq<PyValue>, actual: PyValue): (r: Result<(PyValue, Option<LegacyReport>), PyError>)
    requires WellFormed(inv)
    ensures Verdict(inv, args, actual).Failure? ==> r == Failure(Verdict(inv, args, actual).error)
    ensures r.Success? ==> Verdict(inv, args, actual) == Success(r.value.0)
    ensures r.Success? ==> (r.value.1.None? <==> Truthy(r.value.0))
    ensures r.Success? && r.value.1.Some? ==>
      r.value.1.value == LegacyReport(inv.name, args, actual, LegacyExpectedOf(inv, args, actual))
    ensures !inv.enforce ==> (r.Success? <==> Verdict(inv, args, actual).Success?)
    ensures inv.enforce ==> (r.Success? <==> Verdict(inv, args, actual).Success? && Truthy(Verdict(inv, args, actual).value))
    ensures inv.enforce && Verdict(inv, args, actual).Success? && r.Failure? ==> r.error.AssertionError?
  {
    var verdict :- Verdict(inv, args, actual);
    if Truthy(verdict) then Success((verdict, None))
    else
      var report := LegacyReport(inv.name, args, actual, LegacyExpectedOf(inv, args, actual));
      if inv.enforce then Failure(AssertionError("Invariant for '" + NameText(inv.name) + "' failed for for args"))
      else Success((verdict, Some(report)))
  }

  /**
   * Except for a 2-parameter callable, whose verdict is its own, the verdict holds
   * exactly when the reported expected value equals the actual one.
   */
  lemma LegacyVerdictAgreesWithExpected(inv: LegacyInvariant, args: seq<PyValue>, actual: PyValue)
    requires WellFormed(inv) && Verdict(inv, args, actual).Success?
    requires !(inv.definition.Callable? && inv.definition.arity == 2)
    ensures Truthy(Verdict(inv, args, actual).value) <==> LegacyExpectedOf(inv, args, actual) == Expects(actual)
  {
    var v := Verdict(inv, args, actual).value;
    match inv.definition
    case CaseDict(d) =>
      assert v == PyBool(d[args] == actual);
    case Callable(n, f) =>
      assert v == PyBool(f([PyTuple(args)]).value == actual);
    case Plain(c) =>
      assert v == PyBool(c == actual);
    case Sentinel(_) =>
      assert v == PyBool(ConstantOf(inv.definition) == actual);
  }

  /* ---------------------------------------------------------------- validates */

  /** One row: dig the property out of the inspector and check it against the input. */
  function LegacyRow(inv: LegacyInvariant, p: DryRunProperty, args: seq<PyValue>, dig: Dig, i: nat): (r: Result<(), PyError>)
    requires WellFormed(inv)
    ensures r.Success? <==>
      dig(p).Success? && LegacyCall(inv, args, dig(p).value).Success? &&
      Truthy(LegacyCall(inv, args, dig(p).value).value.0)
  {
    var actual :- dig(p);
    var res :- LegacyCall(inv, args, actual);
    if Truthy(res.0) then Success(()) else Failure(AssertionError("row " + NatToString(i + 1) + " failed"))
  }

  /** The verdict of every row, in input order. */
  function LegacyRowResults(inv: LegacyInvariant, p: DryRunProperty, inputs: seq<seq<PyValue>>, inspectors: seq<Dig>)
    : (rows: seq<Result<(), PyError>>)
    requires WellFormed(inv) && |inputs| == |inspectors|
    ensures |rows| == |inputs| && forall j :: 0 <= j < |inputs| ==> rows[j] == LegacyRow(inv, p, inputs[j], inspectors[j], j)
  {
    seq(|inputs|, j requires 0 <= j < |inputs| => LegacyRow(inv, p, inputs[j], inspectors[j], j))
  }

  /** `validates(property, inputs, inspectors)`: the lengths are checked before any row. */
  function LegacyValidatesSpec(inv: LegacyInvariant, p: DryRunProperty, inputs: seq<seq<PyValue>>, inspectors: seq<Dig>): (r: Result<(), PyError>)
    requires WellFormed(inv)
    ensures |inputs| != |inspectors| ==> r.Failure? && r.error.AssertionError?
  {
    if |inputs| != |inspectors| then
      Failure(AssertionError("inputs (len=" + NatToString(|inputs|) + ") and dryrun responses (len=" +
        NatToString(|inspectors|) + ") must have the same length"))
    else FirstFailure(LegacyRowResults(inv, p, inputs, inspectors), 0)
  }

  /** With as many inspectors as inputs, validation passes exactly when each row does. */
  lemma LegacyRowsAllPass(inv: LegacyInvariant, p: DryRunProperty, inputs: seq<seq<PyValue>>, inspectors: seq<Dig>)
    requires WellFormed(inv) && |inputs| == |inspectors|
    ensures LegacyValidatesSpec(inv, p, inputs, inspectors).Success? <==>
      forall j :: 0 <= j < |inputs| ==> LegacyRow(inv, p, inputs[j], inspectors[j], j).Success?
  {
    FirstFailureAllPass(LegacyRowResults(inv, p, inputs, inspectors), 0);
  }

  /** A failure is that of the first failing row. */
  lemma LegacyRowsFirstFailure(inv: LegacyInvariant, p: DryRunProperty, inputs: seq<seq<PyValue>>, inspectors: seq<Dig>)
    requires WellFormed(inv) && |inputs| == |inspectors|
    requires LegacyValidatesSpec(inv, p, inputs, inspectors).Failure?
    ensures exists k ::
      0 <= k < |inputs| &&
      (forall j :: 0 <= j < k ==> LegacyRow(inv, p, inputs[j], inspectors[j], j).Success?) &&
      LegacyRow(inv, p, inputs[k], inspectors[k], k) == LegacyValidatesSpec(inv, p, inputs, inspectors)
  {
    var rows := LegacyRowResults(inv, p, inputs, inspectors);
    FirstFailureIsEarliest(rows, 0);
    var k :| 0 <= k < |rows| && (forall j :: 0 <= j < k ==> rows[j].Success?) && rows[k] == FirstFailure(rows, 0);
    assert LegacyRow(inv, p, inputs[k], inspectors[k], k) == LegacyValidatesSpec(inv, p, inputs, inspectors);
  }

  method LegacyValidates(inv: LegacyInvariant, p: DryRunProperty, inputs: seq<seq<PyValue>>, inspectors: seq<Dig>)
    returns (r: Result<(), PyError>)
    requires WellFormed(inv)
    ensures r == LegacyValidatesSpec(inv, p, inputs, inspectors)
  {
    if |inputs| != |inspectors| {
      return Failure(AssertionError("inputs (len=" + NatToString(|inputs|) + ") and dryrun responses (len=" +
        NatToString(|inspectors|) + ") must have the same length"));
    }
    ghost var rows := LegacyRowResults(inv, p, inputs, inspectors);
    var i := 0;
    while i < |inputs|
      invariant 0 <= i <= |inputs|
      invariant LegacyValidatesSpec(inv, p, inputs, inspectors) == FirstFailure(rows, i)
    {
      var row := LegacyRow(inv, p, inputs[i], inspectors[i], i);
      if row.Failure? {
        return row;
      }
      i := i + 1;
    }
    return Success(());
  }

  /* --------------------------------------------------- inputs_and_invariants */

  /** The invariants built for the dict items from `i` on, or the first error. */
  function LegacyInvariantsFrom(items: seq<(InvariantKey, PredicateDef)>, mode: Models.ExecutionMode, i: nat): (r: Result<seq<(DryRunProperty, LegacyInvariant)>, PyError>)
    requires i <= |items|
    decreases |items| - i
    ensures r.Success? <==> forall j :: i <= j < |items| ==>
      KeyFitsMode(mode, items[j].0) && NewLegacyInvariant(items[j].1, false, None).Success?
    ensures r.Failure? ==> r.error.AssertionError?
    ensures r.Success? ==> |r.value| == |items| - i
    ensures r.Success? ==> forall j :: 0 <= j < |r.value| ==>
      PropKey(r.value[j].0) == items[i + j].0 &&
      r.value[j].1 == LegacyInvariant(items[i + j].1, false, Some(PropertyText(r.value[j].0))) &&
      WellFormed(r.value[j].1)
  {
    if i == |items| then Success([])
    else
      var key := items[i].0;
      if !KeyFitsMode(mode, key) then Failure(KeyMismatch(mode, key))
      else
        var inv :- NewLegacyInvariant(items[i].1, false, Some(PropertyText(key.prop)));
        var rest :- LegacyInvariantsFrom(items, mode, i + 1);
        Success([(key.prop, inv)] + rest)
  }

  /** The legacy engine returns either the raw predicates or the invariants it built. */
  datatype LegacyInvariantsOut = RawLegacy(raw: ScenarioInvariants) | BuiltLegacy(invs: seq<(DryRunProperty, LegacyInvariant)>)

  /** `inputs_and_invariants` of the older engine; an empty or falsy invariants entry builds nothing. */
  function LegacyInputsAndInvariantsSpec(scenario: Scenario, mode: Models.ExecutionMode, rawPredicates: bool): (r: Result<(seq<seq<PyValue>>, LegacyInvariantsOut), PyError>)
    ensures scenario.NotAScenario? ==> r.Failure? && r.error.AssertionError?
    ensures scenario.ScenarioDict? && !InputsWellFormed(scenario.inputs) ==> r.Failure? && r.error.AssertionError?
    ensures r.Failure? ==> r.error.AssertionError?
    ensures r.Success? ==>
      scenario.ScenarioDict? && InputsWellFormed(scenario.inputs) &&
      |r.value.0| == |scenario.inputs.value.items| &&
      forall k :: 0 <= k < |r.value.0| ==> PyTuple(r.value.0[k]) == scenario.inputs.value.items[k]
    ensures r.Success? && rawPredicates ==> r.value.1 == RawLegacy(scenario.invariants)
    ensures r.Success? && !rawPredicates && scenario.invariants.InvariantsDict? ==>
      r.value.1.BuiltLegacy? && LegacyInvariantsFrom(scenario.invariants.items, mode, 0) == Success(r.value.1.invs)
    ensures scenario.ScenarioDict? && InputsWellFormed(scenario.inputs) && scenario.invariants.InvariantsDict? ==>
      (r.Success? <==> LegacyInvariantsFrom(scenario.invariants.items, mode, 0).Success?)
    ensures scenario.ScenarioDict? && scenario.invariants.NotADict? ==>
      (r.Failure? <==> scenario.invariants.truthy || !InputsWellFormed(scenario.inputs))
  {
    if scenario.NotAScenario? then
      Failure(AssertionError(SCENARIO_NOT_DICT + scenario.typeName))
    else if !InputsWellFormed(scenario.inputs) then
      Failure(AssertionError(BAD_SCENARIO_INPUTS))
    else
      var inputs := TupleItems(scenario.inputs.value.items);
      match scenario.invariants
      case NotADict(_, truthy) =>
        if truthy then Failure(AssertionError(INVARIANTS_NOT_DICT))
        else Success((inputs, if rawPredicates then RawLegacy(scenario.invariants) else BuiltLegacy([])))
      case InvariantsDict(items) =>
        var invs :- LegacyInvariantsFrom(items, mode, 0);
        Success((inputs, if rawPredicates then RawLegacy(scenario.invariants) else BuiltLegacy(invs)))
  }

  function PrependLegacy(acc: seq<(DryRunProperty, LegacyInvariant)>, r: Result<seq<(DryRunProperty, LegacyInvariant)>, PyError>): Result<seq<(DryRunProperty, LegacyInvariant)>, PyError> {
    if r.Success? then Success(acc + r.value) else r
  }

  lemma PrependLegacyStep(items: seq<(InvariantKey, PredicateDef)>, mode: Models.ExecutionMode, i: nat, acc: seq<(DryRunProperty, LegacyInvariant)>)
    requires i < |items| && KeyFitsMode(mode, items[i].0)
    requires NewLegacyInvariant(items[i].1, false, Some(PropertyText(items[i].0.prop))).Success?
    ensures PrependLegacy(acc, LegacyInvariantsFrom(items, mode, i)) ==
      PrependLegacy(acc + [(items[i].0.prop, LegacyInvariant(items[i].1, false, Some(PropertyText(items[i].0.prop))))],
                    LegacyInvariantsFrom(items, mode, i + 1))
  {
    var x := (items[i].0.prop, LegacyInvariant(items[i].1, false, Some(PropertyText(items[i].0.prop))));
    var rest := LegacyInvariantsFrom(items, mode, i + 1);
    if rest.Success? {
      assert acc + ([x] + rest.value) == (acc + [x]) + rest.value;
    }
  }

  /** `inputs_and_invariants`, building the invariants dict item by item. */
  method LegacyInputsAndInvariants(scenario: Scenario, mode: Models.ExecutionMode, rawPredicates: bool)
    returns (r: Result<(seq<seq<PyValue>>, LegacyInvariantsOut), PyError>)
    ensures r == LegacyInputsAndInvariantsSpec(scenario, mode, rawPredicates)
  {
    if scenario.NotAScenario? {
      return Failure(AssertionError(SCENARIO_NOT_DICT + scenario.typeName));
    }
    if !InputsWellFormed(scenario.inputs) {
      return Failure(AssertionError(BAD_SCENARIO_INPUTS));
    }
    var inputs := TupleItems(scenario.inputs.value.items);
    var acc: seq<(DryRunProperty, LegacyInvariant)> := [];
    if scenario.invariants.NotADict? {
      if scenario.invariants.truthy {
        return Failure(AssertionError(INVARIANTS_NOT_DICT));
      }
    } else {
      var items := scenario.invariants.items;
      var all := LegacyInvariantsFrom(items, mode, 0);
      assert all.Success? ==> [] + all.value == all.value;
      var i := 0;
      while i < |items|
        invariant 0 <= i <= |items|
        invariant all == PrependLegacy(acc, LegacyInvariantsFrom(items, mode, i))
      {
        var key := items[i].0;
        if !KeyFitsMode(mode, key) {
          return Failure(KeyMismatch(mode, key));
        }
        var inv := NewLegacyInvariant(items[i].1, false, Some(PropertyText(key.prop)));
        if inv.Failure? {
          return Failure(inv.error);
        }
        PrependLegacyStep(items, mode, i, acc);
        acc := acc + [(key.prop, inv.value)];
        i := i + 1;
      }
      assert acc + [] == acc;
    }
    if rawPredicates {
      return Success((inputs, RawLegacy(scenario.invariants)));
    }
    return Success((inputs, BuiltLegacy(acc)));
  }
}

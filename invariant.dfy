/**
 * The predicate/invariant engine: a user predicate (a sentinel, a case map, a
 * constant or a callable of one or two parameters) is classified into a
 * `PredicateKind`, prepared into an `Invariant`, evaluated against what an
 * inspector digs out of a dry run, and validated row by row over a sequence of
 * inspectors (optionally against a parallel sequence of identity inspectors).
 */
module Invariants {
  import opened Wrappers
  import opened PyModel
  import Models
  import Inspector

  // Messages of the exceptions raised here, as Python spells them.
  const KIND_NOT_CALLABLE: string := "'PredicateKind' object is not callable"
  const KIND_NOT_SUBSCRIPTABLE: string := "'PredicateKind' object is not subscriptable"
  const MISSING_EXPECTED_ARG: string := "<lambda>() missing 1 required positional argument: 'expected'"
  const IDENTITY_ARGS_DIFFER: string := "IdenticalPair predicates expects the same argments but they aren't"
  const IDENTITY_ABI_TYPE_DIFFERS: string := "IdenticalPair predicates should have the same abi_type"
  const UNHANDLED_KIND: string := "Unhandled PredicateKind "
  const SCENARIO_NOT_DICT: string := "a Blackbox Scenario should be a dict but got a "
  const BAD_PROPERTY_KEY: string := "each key must be a DryRunProperty's appropriate to "
  const INVARIANTS_NOT_DICT: string := "invariants must be a dict"
  const BAD_SCENARIO_INPUTS: string := "need a list of inputs with at least one args and all args must be tuples"
  const WRONG_ARITY: string := "predicate has the wrong number of paramters "
  const TOO_MANY_PREDICATE_ARGS: string := "takes 2 positional arguments but 3 were given"

  type DryRunProperty = Inspector.DryRunProperty
  type DryRunInspector = Inspector.DryRunInspector

  datatype PredicateKind = Constant | CaseMap | ExactMatch | RangeMatch | IdenticalPair

  /** `str(kind)` of the enum member. */
  function KindText(k: PredicateKind): string {
    match k
    case Constant => "PredicateKind.Constant"
    case CaseMap => "PredicateKind.CaseMap"
    case ExactMatch => "PredicateKind.ExactMatch"
    case RangeMatch => "PredicateKind.RangeMatch"
    case IdenticalPair => "PredicateKind.IdenticalPair"
  }

  /**
   * A user predicate. Python discovers a callable's arity by reflection; here the
   * arity is recorded in the constructor. A callable receives its positional
   * arguments as a list (the args tuple, then `actual` when it takes two) and may
   * itself raise.
   */
  datatype PredicateDef =
    | Sentinel(sentinel: PredicateKind)
    | CaseDict(cases: map<seq<PyValue>, PyValue>)
    | Callable(arity: nat, call: seq<PyValue> -> Result<PyValue, PyError>)
    | Plain(value: PyValue)

  /** `get_kind`: the kind of a predicate; a callable must take one or two parameters. */
  function GetKind(p: PredicateDef): (r: Result<PredicateKind, PyError>)
    ensures r.Failure? <==> p.Callable? && p.arity != 1 && p.arity != 2
    ensures r.Failure? ==> r.error.AssertionError?
    ensures r == Success(RangeMatch) <==> (p.Callable? && p.arity == 2) || p == Sentinel(RangeMatch)
    ensures r == Success(ExactMatch) <==> (p.Callable? && p.arity == 1) || p == Sentinel(ExactMatch)
    ensures r == Success(CaseMap) <==> p.CaseDict? || p == Sentinel(CaseMap)
    ensures r == Success(Constant) <==> p.Plain? || p == Sentinel(Constant)
    ensures r == Success(IdenticalPair) <==> p == Sentinel(IdenticalPair)
  {
    match p
    case Sentinel(k) => Success(k)
    case CaseDict(_) => Success(CaseMap)
    case Plain(_) => Success(Constant)
    case Callable(n, _) =>
      if n == 2 then Success(RangeMatch)
      else if n == 1 then Success(ExactMatch)
      else Failure(AssertionError(WRONG_ARITY + NatToString(n)))
  }

  /** A prepared invariant; its fields are fixed once constructed. */
  datatype Invariant = Invariant(definition: PredicateDef, kind: PredicateKind, enforce: bool, name: Option<string>)

  /** The kind was computed from the definition, as the constructor does. */
  predicate Prepared(inv: Invariant) {
    GetKind(inv.definition) == Success(inv.kind)
  }

  /** `Invariant(predicate, enforce, name)`: construction fails exactly when classification does. */
  function NewInvariant(p: PredicateDef, enforce: bool, name: Option<string>): (r: Result<Invariant, PyError>)
    ensures r.Success? <==> GetKind(p).Success?
    ensures r.Failure? ==> r.error.AssertionError?
    ensures r.Success? ==> Prepared(r.value)
    ensures r.Success? ==> r.value.definition == p && r.value.enforce == enforce && r.value.name == name
  {
    var k :- GetKind(p);
    Success(Invariant(p, k, enforce, name))
  }

  /**
   * The value a Constant invariant compares with: the predicate itself, which for a
   * sentinel is the enum member (no dig result is ever one).
   */
  function ConstantOf(p: PredicateDef): PyValue {
    match p
    case Plain(v) => v
    case _ => PyOther("PredicateKind")
  }

  /**
   * The prepared predicate applied to `(args, actual)`, or to
   * `(args, actual, expected)` when `ext` is `Some(expected)`: only the
   * IdenticalPair predicate takes three arguments, every other one two, and a
   * call with the wrong count is a TypeError.
   */
  function PredicateValue(inv: Invariant, args: seq<PyValue>, actual: PyValue, ext: Option<PyValue>): (r: Result<PyValue, PyError>)
    ensures r.Success? ==> (ext.Some? <==> inv.kind == IdenticalPair)
    ensures inv.kind == IdenticalPair && ext.Some? ==> r == Success(PyBool(actual == ext.value))
    ensures inv.kind == CaseMap && inv.definition.CaseDict? && ext.None? ==>
      (r.Failure? <==> args !in inv.definition.cases) &&
      (r.Failure? ==> r.error.KeyError?) &&
      (r.Success? ==> r.value == PyBool(inv.definition.cases[args] == actual))
    ensures inv.kind == Constant && ext.None? ==> r == Success(PyBool(ConstantOf(inv.definition) == actual))
    ensures inv.kind == RangeMatch && inv.definition.Callable? && ext.None? ==>
      r == inv.definition.call([PyTuple(args), actual])
    ensures inv.kind == ExactMatch && inv.definition.Callable? && ext.None? ==>
      (r.Success? <==> inv.definition.call([PyTuple(args)]).Success?) &&
      (r.Success? ==> r.value == PyBool(inv.definition.call([PyTuple(args)]).value == actual))
  {
    if inv.kind == IdenticalPair then
      if ext.Some? then Success(PyBool(actual == ext.value))
      else Failure(TypeError(MISSING_EXPECTED_ARG))
    else if ext.Some? then
      Failure(TypeError(TOO_MANY_PREDICATE_ARGS))
    else
      match inv.kind
      case CaseMap =>
        (match inv.definition
         case CaseDict(d) => if args in d then Success(PyBool(d[args] == actual)) else Failure(KeyError("args"))
         case _ => Failure(TypeError(KIND_NOT_SUBSCRIPTABLE)))
      case Constant => Success(PyBool(ConstantOf(inv.definition) == actual))
      case RangeMatch =>
        (match inv.definition
         case Callable(_, f) => f([PyTuple(args), actual])
         case _ => Failure(TypeError(KIND_NOT_CALLABLE)))
      case ExactMatch =>
        (match inv.definition
         case Callable(_, f) =>
           var e :- f([PyTuple(args)]);
           Success(PyBool(e == actual))
         case _ => Failure(TypeError(KIND_NOT_CALLABLE)))
  }

  /** What a failure message reports as expected. */
  datatype ExpectedValue =
    | Value(v: PyValue)
      /** the text `RangeMatch(args=...)` of a range match */
    | RangeNote(args: seq<PyValue>)
      /** the `(actual, expected)` tuple of an identical pair */
    | Pair(actual: PyValue, expected: PyValue)

  /**
   * `expected`, as `__call__` uses it: only after the predicate itself evaluated,
   * so the lookups and the callable it repeats succeed again.
   */
  function Expected(inv: Invariant, args: seq<PyValue>, actual: PyValue, ext: Option<PyValue>): (e: ExpectedValue)
    requires PredicateValue(inv, args, actual, ext).Success?
    ensures inv.kind == IdenticalPair ==> e == Pair(actual, ext.value)
    ensures inv.kind == RangeMatch ==> e == RangeNote(args)
    ensures inv.kind == Constant ==> e == Value(ConstantOf(inv.definition))
    ensures inv.kind == CaseMap ==>
      inv.definition.CaseDict? && args in inv.definition.cases && e == Value(inv.definition.cases[args])
    ensures inv.kind == ExactMatch ==>
      inv.definition.Callable? && inv.definition.call([PyTuple(args)]).Success? &&
      e == Value(inv.definition.call([PyTuple(args)]).value)
  {
    match inv.kind
    case IdenticalPair => Pair(actual, ext.value)
    case RangeMatch => RangeNote(args)
    case Constant => Value(ConstantOf(inv.definition))
    case CaseMap => Value(inv.definition.cases[args])
    case ExactMatch => Value(inv.definition.call([PyTuple(args)]).value)
  }

  /**
   * The failure message of `__call__`: it names the kind, the invariant's name and
   * the args, then either the `(actual, expected)` pair or "actual is [..] BUT
   * expected [..]" (the `repr` renderings are not modelled).
   */
  datatype FailureReport = FailureReport(
    kind: PredicateKind, name: Option<string>, args: seq<PyValue>, actual: PyValue, expected: ExpectedValue)

  function NameText(name: Option<string>): string {
    if name.Some? then name.value else "None"
  }

  // The fixed parts of the failure message's head.
  const REPORT_OPEN: string := "Invariant of "
  const REPORT_FOR: string := " for '"
  const REPORT_FAILED: string := "' failed for for args"

  /**
   * The head of the failure message, as far as it is plain text: the kind before the
   * invariant's name, then the name and the fixed tail.
   */
  function ReportHead(rep: FailureReport): (s: string)
    ensures var lead := REPORT_OPEN + KindText(rep.kind) + REPORT_FOR;
      lead <= s && s[|lead|..] == NameText(rep.name) + REPORT_FAILED
  {
    var lead := REPORT_OPEN + KindText(rep.kind) + REPORT_FOR;
    var tail := NameText(rep.name) + REPORT_FAILED;
    assert (lead + tail)[|lead|..] == tail;
    lead + tail
  }

  /**
   * `__call__`: the verdict and the message; no message on success, a report on
   * failure, and an AssertionError instead when the invariant is enforced.
   */
  function Call(inv: Invariant, args: seq<PyValue>, actual: PyValue, ext: Option<PyValue>): (r: Result<(PyValue, Option<FailureReport>), PyError>)
    ensures PredicateValue(inv, args, actual, ext).Failure? ==> r == Failure(PredicateValue(inv, args, actual, ext).error)
    ensures r.Success? ==> PredicateValue(inv, args, actual, ext) == Success(r.value.0)
    ensures r.Success? ==> (r.value.1.None? <==> Truthy(r.value.0))
    ensures r.Success? && r.value.1.Some? ==>
      r.value.1.value == FailureReport(inv.kind, inv.name, args, actual, Expected(inv, args, actual, ext))
    ensures !inv.enforce ==> (r.Success? <==> PredicateValue(inv, args, actual, ext).Success?)
    ensures inv.enforce ==> (r.Success? <==>
      PredicateValue(inv, args, actual, ext).Success? && Truthy(PredicateValue(inv, args, actual, ext).value))
    ensures inv.enforce && PredicateValue(inv, args, actual, ext).Success? && r.Failure? ==>
      r == Failure(AssertionError(ReportHead(FailureReport(inv.kind, inv.name, args, actual, Expected(inv, args, actual, ext)))))
  {
    var verdict :- PredicateValue(inv, args, actual, ext);
    if Truthy(verdict) then Success((verdict, None))
    else
      var report := FailureReport(inv.kind, inv.name, args, actual, Expected(inv, args, actual, ext));
      if inv.enforce then Failure(AssertionError(ReportHead(report)))
      else Success((verdict, Some(report)))
  }

  /**
   * For every kind that compares by equality, the verdict holds exactly when the
   * expected value of the failure report would equal the actual value (for an
   * identical pair: when both halves of the pair agree).
   */
  lemma VerdictAgreesWithExpected(inv: Invariant, args: seq<PyValue>, actual: PyValue, ext: Option<PyValue>)
    requires Prepared(inv) && inv.kind != RangeMatch
    requires PredicateValue(inv, args, actual, ext).Success?
    ensures inv.kind == IdenticalPair ==>
      (Truthy(PredicateValue(inv, args, actual, ext).value) <==> Expected(inv, args, actual, ext) == Pair(actual, actual))
    ensures inv.kind != IdenticalPair ==>
      (Truthy(PredicateValue(inv, args, actual, ext).value) <==> Expected(inv, args, actual, ext) == Value(actual))
  {
    var e := Expected(inv, args, actual, ext);
    var v := PredicateValue(inv, args, actual, ext).value;
    match inv.kind
    case IdenticalPair =>
      assert v == PyBool(actual == ext.value);
    case Constant =>
      assert v == PyBool(ConstantOf(inv.definition) == actual);
    case CaseMap =>
      assert v == PyBool(inv.definition.cases[args] == actual);
    case ExactMatch =>
      assert v == PyBool(inv.definition.call([PyTuple(args)]).value == actual);
  }

  /** A passing call carries no message; a failing one, unenforced, always does. */
  lemma CallMessageIffFailed(inv: Invariant, args: seq<PyValue>, actual: PyValue, ext: Option<PyValue>)
    requires !inv.enforce
    requires PredicateValue(inv, args, actual, ext).Success?
    ensures Call(inv, args, actual, ext).Success?
    ensures Call(inv, args, actual, ext).value.1.Some? <==> !Truthy(PredicateValue(inv, args, actual, ext).value)
    ensures Call(inv, args, actual, ext).value.1.Some? ==> ReportHead(Call(inv, args, actual, ext).value.1.value) != ""
  {
  }

  /* ---------------------------------------------------------------- validates */

  /** The suffix `validates` appends to a failure message when it was given one. */
  function MessageSuffix(msg: string): string {
    if msg != "" then ". invariant provided message:" + msg else ""
  }

  /** The AssertionError of a failing row; the inspector's report table is not modelled. */
  function RowFailure(row: nat, msg: string): PyError {
    AssertionError("row " + NatToString(row) + " failed" + MessageSuffix(msg))
  }

  /** One row of `validates` without identities. */
  function CheckRow(inv: Invariant, p: DryRunProperty, inspector: DryRunInspector, msg: string, i: nat): (r: Result<(), PyError>)
    reads inspector
    ensures inspector.Dig(p, None).Failure? ==> r == Failure(inspector.Dig(p, None).error)
    ensures r.Success? <==>
      inspector.Dig(p, None).Success? &&
      Call(inv, inspector.core.args, inspector.Dig(p, None).value, None).Success? &&
      Truthy(Call(inv, inspector.core.args, inspector.Dig(p, None).value, None).value.0)
  {
    var actual :- inspector.Dig(p, None);
    var res :- Call(inv, inspector.core.args, actual, None);
    if Truthy(res.0) then Success(()) else Failure(RowFailure(i + 1, msg))
  }

  /** One row of `validates` against an identity inspector. */
  function CheckIdentityRow(inv: Invariant, p: DryRunProperty, inspector: DryRunInspector, identity: DryRunInspector, msg: string, i: nat): (r: Result<(), PyError>)
    reads inspector, identity
    ensures inspector.core.abiType != identity.core.abiType ==> r.Failure? && r.error.AssertionError?
    ensures Inspector.AbiParamsOrArgs(inspector.core) != Inspector.AbiParamsOrArgs(identity.core) ==>
      r.Failure? && r.error.AssertionError?
    ensures r.Success? <==>
      inspector.core.abiType == identity.core.abiType &&
      Inspector.AbiParamsOrArgs(inspector.core) == Inspector.AbiParamsOrArgs(identity.core) &&
      identity.Dig(p, None).Success? && inspector.Dig(p, None).Success? &&
      Call(inv, inspector.core.args, inspector.Dig(p, None).value, Some(identity.Dig(p, None).value)).Success? &&
      Truthy(Call(inv, inspector.core.args, inspector.Dig(p, None).value, Some(identity.Dig(p, None).value)).value.0)
  {
    if inspector.core.abiType != identity.core.abiType then
      Failure(AssertionError(IDENTITY_ABI_TYPE_DIFFERS))
    else if Inspector.AbiParamsOrArgs(inspector.core) != Inspector.AbiParamsOrArgs(identity.core) then
      Failure(AssertionError(IDENTITY_ARGS_DIFFER))
    else
      var expected :- identity.Dig(p, None);
      var actual :- inspector.Dig(p, None);
      var res :- Call(inv, inspector.core.args, actual, Some(expected));
      if Truthy(res.0) then Success(()) else Failure(RowFailure(i + 1, msg))
  }

  /** Results taken in order: the first failure, or success when there is none. */
  function FirstFailure(results: seq<Result<(), PyError>>, i: nat): Result<(), PyError>
    requires i <= |results|
    decreases |results| - i
  {
    if i == |results| then Success(())
    else if results[i].Failure? then results[i]
    else FirstFailure(results, i + 1)
  }

  /** The fold succeeds exactly when every result from `i` on does. */
  lemma {:induction false} FirstFailureAllPass(results: seq<Result<(), PyError>>, i: nat)
    requires i <= |results|
    ensures FirstFailure(results, i).Success? <==> forall j :: i <= j < |results| ==> results[j].Success?
    decreases |results| - i
  {
    if i < |results| {
      FirstFailureAllPass(results, i + 1);
    }
  }

  /** A failure of the fold is the earliest failing result. */
  lemma {:induction false} FirstFailureIsEarliest(results: seq<Result<(), PyError>>, i: nat)
    requires i <= |results|
    requires FirstFailure(results, i).Failure?
    ensures exists k :: i <= k < |results| && (forall j :: i <= j < k ==> results[j].Success?) && results[k] == FirstFailure(results, i)
    decreases |results| - i
  {
    if results[i].Failure? {
      assert i <= i < |results|;
    } else {
      FirstFailureIsEarliest(results, i + 1);
      var k :| i + 1 <= k < |results| && (forall j :: i + 1 <= j < k ==> results[j].Success?) && results[k] == FirstFailure(results, i + 1);
      assert forall j :: i <= j < k ==> results[j].Success?;
    }
  }

  /** The verdict of every row without identities, in input order. */
  function RowResults(inv: Invariant, p: DryRunProperty, inspectors: seq<DryRunInspector>, msg: string): (rows: seq<Result<(), PyError>>)
    reads inspectors
    ensures |rows| == |inspectors| && forall j :: 0 <= j < |inspectors| ==> rows[j] == CheckRow(inv, p, inspectors[j], msg, j)
  {
    seq(|inspectors|, j requires 0 <= j < |inspectors| reads inspectors => CheckRow(inv, p, inspectors[j], msg, j))
  }

  /** The verdict of every row against its identity; a row past the identities is an IndexError. */
  function IdentityRowResults(inv: Invariant, p: DryRunProperty, inspectors: seq<DryRunInspector>, identities: seq<DryRunInspector>, msg: string)
    : (rows: seq<Result<(), PyError>>)
    reads inspectors, identities
    ensures |rows| == |inspectors|
    ensures forall j :: 0 <= j < |inspectors| && j < |identities| ==> rows[j] == CheckIdentityRow(inv, p, inspectors[j], identities[j], msg, j)
    ensures forall j :: |identities| <= j < |inspectors| ==> rows[j] == Failure(IndexError(LIST_INDEX_OUT_OF_RANGE))
  {
    seq(|inspectors|, j requires 0 <= j < |inspectors| reads inspectors, identities =>
      if j < |identities| then CheckIdentityRow(inv, p, inspectors[j], identities[j], msg, j)
      else Failure(IndexError(LIST_INDEX_OUT_OF_RANGE)))
  }

  /** `validates`; an empty identity list counts as none, as in Python. */
  function ValidatesSpec(inv: Invariant, p: DryRunProperty, inspectors: seq<DryRunInspector>, identities: seq<DryRunInspector>, msg: string): (r: Result<(), PyError>)
    reads inspectors, identities
    ensures identities != [] && inv.kind != IdenticalPair ==> r.Failure? && r.error.AssertionError?
  {
    if identities != [] then
      if inv.kind != IdenticalPair then Failure(AssertionError(UNHANDLED_KIND + KindText(inv.kind)))
      else FirstFailure(IdentityRowResults(inv, p, inspectors, identities, msg), 0)
    else FirstFailure(RowResults(inv, p, inspectors, msg), 0)
  }

  /** Without identities, validation passes exactly when every row passes. */
  lemma ValidatesAllRowsPass(inv: Invariant, p: DryRunProperty, inspectors: seq<DryRunInspector>, msg: string)
    ensures ValidatesSpec(inv, p, inspectors, [], msg).Success? <==>
      forall j :: 0 <= j < |inspectors| ==> CheckRow(inv, p, inspectors[j], msg, j).Success?
  {
    FirstFailureAllPass(RowResults(inv, p, inspectors, msg), 0);
  }

  /** Without identities, a failing validation reports the first failing row's error. */
  lemma ValidatesFirstFailingRow(inv: Invariant, p: DryRunProperty, inspectors: seq<DryRunInspector>, msg: string)
    requires ValidatesSpec(inv, p, inspectors, [], msg).Failure?
    ensures exists k ::
      0 <= k < |inspectors| &&
      (forall j :: 0 <= j < k ==> CheckRow(inv, p, inspectors[j], msg, j).Success?) &&
      CheckRow(inv, p, inspectors[k], msg, k) == ValidatesSpec(inv, p, inspectors, [], msg)
  {
    var rows := RowResults(inv, p, inspectors, msg);
    FirstFailureIsEarliest(rows, 0);
    var k :| 0 <= k < |rows| && (forall j :: 0 <= j < k ==> rows[j].Success?) && rows[k] == FirstFailure(rows, 0);
    assert CheckRow(inv, p, inspectors[k], msg, k) == ValidatesSpec(inv, p, inspectors, [], msg);
  }

  /** With identities, validation passes exactly when there are enough identities and each pair agrees. */
  lemma ValidatesIdentityRowsPass(inv: Invariant, p: DryRunProperty, inspectors: seq<DryRunInspector>, identities: seq<DryRunInspector>, msg: string)
    requires identities != [] && inv.kind == IdenticalPair
    ensures ValidatesSpec(inv, p, inspectors, identities, msg).Success? <==>
      |identities| >= |inspectors| &&
      forall j :: 0 <= j < |inspectors| ==> CheckIdentityRow(inv, p, inspectors[j], identities[j], msg, j).Success?
  {
    var rows := IdentityRowResults(inv, p, inspectors, identities, msg);
    FirstFailureAllPass(rows, 0);
    if |identities| < |inspectors| {
      assert rows[|identities|].Failure?;
    }
  }

  /** `validates`, row by row in input order. */
  method Validates(inv: Invariant, p: DryRunProperty, inspectors: seq<DryRunInspector>, identities: seq<DryRunInspector>, msg: string)
    returns (r: Result<(), PyError>)
    ensures r == ValidatesSpec(inv, p, inspectors, identities, msg)
  {
    if identities != [] {
      if inv.kind != IdenticalPair {
        return Failure(AssertionError(UNHANDLED_KIND + KindText(inv.kind)));
      }
      ghost var rows := IdentityRowResults(inv, p, inspectors, identities, msg);
      var i := 0;
      while i < |inspectors|
        invariant 0 <= i <= |inspectors|
        invariant ValidatesSpec(inv, p, inspectors, identities, msg) == FirstFailure(rows, i)
      {
        if i >= |identities| {
          return Failure(IndexError(LIST_INDEX_OUT_OF_RANGE));
        }
        var row := CheckIdentityRow(inv, p, inspectors[i], identities[i], msg, i);
        if row.Failure? {
          return row;
        }
        i := i + 1;
      }
      return Success(());
    }
    ghost var rows := RowResults(inv, p, inspectors, msg);
    var i := 0;
    while i < |inspectors|
      invariant 0 <= i <= |inspectors|
      invariant ValidatesSpec(inv, p, inspectors, identities, msg) == FirstFailure(rows, i)
    {
      var row := CheckRow(inv, p, inspectors[i], msg, i);
      if row.Failure? {
        return row;
      }
      i := i + 1;
    }
    return Success(());
  }


  /* ------------------------------------------------------------ as_invariants */

  /** A key of a scenario's invariants dict: a property, or any other object. */
  datatype InvariantKey = PropKey(prop: DryRunProperty) | OtherKey(repr: string)

  /** A Python dict given as its items in insertion order: no key twice. */
  predicate IsDict<K(==), V>(items: seq<(K, V)>) {
    forall i, j :: 0 <= i < j < |items| ==> items[i].0 != items[j].0
  }

  function PropertyText(p: DryRunProperty): string {
    match p
    case Cost => "DryRunProperty.cost"
    case BudgetAdded => "DryRunProperty.budgetAdded"
    case BudgetConsumed => "DryRunProperty.budgetConsumed"
    case LastLog => "DryRunProperty.lastLog"
    case FinalScratch => "DryRunProperty.finalScratch"
    case StackTop => "DryRunProperty.stackTop"
    case MaxStackHeight => "DryRunProperty.maxStackHeight"
    case Status => "DryRunProperty.status"
    case Rejected => "DryRunProperty.rejected"
    case Passed => "DryRunProperty.passed"
    case Error => "DryRunProperty.error"
    case ErrorMessage => "DryRunProperty.errorMessage"
    case GlobalStateHas => "DryRunProperty.globalStateHas"
    case LocalStateHas => "DryRunProperty.localStateHas"
    case LastMessage => "DryRunProperty.lastMessage"
  }

  function KeyText(k: InvariantKey): string {
    match k
    case PropKey(p) => PropertyText(p)
    case OtherKey(s) => s
  }

  /** The key is a property the mode can report. */
  predicate KeyFitsMode(mode: Models.ExecutionMode, k: InvariantKey) {
    k.PropKey? && Inspector.ModeHasProperty(mode, k.prop)
  }

  function KeyMismatch(mode: Models.ExecutionMode, k: InvariantKey): PyError {
    AssertionError(BAD_PROPERTY_KEY +
      (if mode == Models.Application then "ExecutionMode.Application" else "ExecutionMode.Signature") +
      ". This is not the case for key " + KeyText(k))
  }

  /** The invariants `as_invariants` builds for the items from `i` on, or the first error. */
  function AsInvariantsFrom(predicates: seq<(InvariantKey, PredicateDef)>, mode: Models.ExecutionMode, i: nat): (r: Result<seq<(DryRunProperty, Invariant)>, PyError>)
    requires i <= |predicates|
    decreases |predicates| - i
    ensures r.Success? <==> forall j :: i <= j < |predicates| ==>
      KeyFitsMode(mode, predicates[j].0) && GetKind(predicates[j].1).Success?
    ensures (exists j :: i <= j < |predicates| && !KeyFitsMode(mode, predicates[j].0)) ==> r.Failure?
    ensures r.Failure? ==> r.error.AssertionError?
    ensures r.Success? ==> |r.value| == |predicates| - i
    ensures r.Success? ==> forall j :: 0 <= j < |r.value| ==>
      PropKey(r.value[j].0) == predicates[i + j].0 &&
      Success(r.value[j].1) == NewInvariant(predicates[i + j].1, false, Some(PropertyText(r.value[j].0)))
  {
    if i == |predicates| then Success([])
    else
      var key := predicates[i].0;
      if !KeyFitsMode(mode, key) then Failure(KeyMismatch(mode, key))
      else
        var inv :- NewInvariant(predicates[i].1, false, Some(PropertyText(key.prop)));
        var rest :- AsInvariantsFrom(predicates, mode, i + 1);
        Success([(key.prop, inv)] + rest)
  }

  /** Prefix the invariants built so far to the outcome for the rest. */
  function Prepend(acc: seq<(DryRunProperty, Invariant)>, r: Result<seq<(DryRunProperty, Invariant)>, PyError>): Result<seq<(DryRunProperty, Invariant)>, PyError> {
    if r.Success? then Success(acc + r.value) else r
  }

  /** Built invariants keep the dict's keys, so they form a dict too. */
  lemma AsInvariantsIsDict(predicates: seq<(InvariantKey, PredicateDef)>, mode: Models.ExecutionMode)
    requires IsDict(predicates)
    requires AsInvariantsFrom(predicates, mode, 0).Success?
    ensures IsDict(AsInvariantsFrom(predicates, mode, 0).value)
  {
    var r := AsInvariantsFrom(predicates, mode, 0).value;
    forall i, j | 0 <= i < j < |r|
      ensures r[i].0 != r[j].0
    {
      assert PropKey(r[i].0) == predicates[i].0 && PropKey(r[j].0) == predicates[j].0;
    }
  }

  /** One more item built: the accumulated prefix grows by that item's invariant. */
  lemma PrependStep(predicates: seq<(InvariantKey, PredicateDef)>, mode: Models.ExecutionMode, i: nat, acc: seq<(DryRunProperty, Invariant)>)
    requires i < |predicates| && KeyFitsMode(mode, predicates[i].0)
    requires NewInvariant(predicates[i].1, false, Some(PropertyText(predicates[i].0.prop))).Success?
    ensures Prepend(acc, AsInvariantsFrom(predicates, mode, i)) ==
      Prepend(acc + [(predicates[i].0.prop, NewInvariant(predicates[i].1, false, Some(PropertyText(predicates[i].0.prop))).value)],
              AsInvariantsFrom(predicates, mode, i + 1))
  {
    var x := (predicates[i].0.prop, NewInvariant(predicates[i].1, false, Some(PropertyText(predicates[i].0.prop))).value);
    var rest := AsInvariantsFrom(predicates, mode, i + 1);
    if rest.Success? {
      assert acc + ([x] + rest.value) == (acc + [x]) + rest.value;
    }
  }

  /** `as_invariants`: one unenforced invariant named after its key, per item, in order. */
  method AsInvariants(predicates: seq<(InvariantKey, PredicateDef)>, mode: Models.ExecutionMode)
    returns (r: Result<seq<(DryRunProperty, Invariant)>, PyError>)
    ensures r == AsInvariantsFrom(predicates, mode, 0)
  {
    var acc: seq<(DryRunProperty, Invariant)> := [];
    var i := 0;
    var all := AsInvariantsFrom(predicates, mode, 0);
    assert all.Success? ==> [] + all.value == all.value;
    while i < |predicates|
      invariant 0 <= i <= |predicates|
      invariant AsInvariantsFrom(predicates, mode, 0) == Prepend(acc, AsInvariantsFrom(predicates, mode, i))
    {
      var key := predicates[i].0;
      if !KeyFitsMode(mode, key) {
        return Failure(KeyMismatch(mode, key));
      }
      var inv := NewInvariant(predicates[i].1, false, Some(PropertyText(key.prop)));
      if inv.Failure? {
        return Failure(inv.error);
      }
      PrependStep(predicates, mode, i, acc);
      acc := acc + [(key.prop, inv.value)];
      i := i + 1;
    }
    assert AsInvariantsFrom(predicates, mode, i) == Success([]);
    assert acc + [] == acc;
    return Success(acc);
  }

  /* ---------------------------------------------------------- full_validation */

  /** The validation of each prepared property, in order. */
  function PropertyResults(invs: seq<(DryRunProperty, Invariant)>, inspectors: seq<DryRunInspector>, identities: seq<DryRunInspector>, msg: string)
    : (results: seq<Result<(), PyError>>)
    reads inspectors, identities
    ensures |results| == |invs|
    ensures forall j :: 0 <= j < |invs| ==> results[j] == ValidatesSpec(invs[j].1, invs[j].0, inspectors, identities, msg)
  {
    seq(|invs|, j requires 0 <= j < |invs| reads inspectors, identities => ValidatesSpec(invs[j].1, invs[j].0, inspectors, identities, msg))
  }

  /** `full_validation`: prepare for Application mode, then validate every property, stopping at the first failure. */
  function FullValidationSpec(predicates: seq<(InvariantKey, PredicateDef)>, inspectors: seq<DryRunInspector>, identities: seq<DryRunInspector>, msg: string): Result<(), PyError>
    reads inspectors, identities
  {
    var invs :- AsInvariantsFrom(predicates, Models.Application, 0);
    FirstFailure(PropertyResults(invs, inspectors, identities, msg), 0)
  }

  /**
   * `full_validation` passes exactly when all keys are Application properties with
   * well-formed predicates, and each property validates on its own.
   */
  lemma FullValidationIff(predicates: seq<(InvariantKey, PredicateDef)>, inspectors: seq<DryRunInspector>, identities: seq<DryRunInspector>, msg: string)
    ensures FullValidationSpec(predicates, inspectors, identities, msg).Success? <==>
      AsInvariantsFrom(predicates, Models.Application, 0).Success? &&
      forall j :: 0 <= j < |AsInvariantsFrom(predicates, Models.Application, 0).value| ==>
        ValidatesSpec(AsInvariantsFrom(predicates, Models.Application, 0).value[j].1,
                      AsInvariantsFrom(predicates, Models.Application, 0).value[j].0, inspectors, identities, msg).Success?
  {
    var r := AsInvariantsFrom(predicates, Models.Application, 0);
    if r.Success? {
      FirstFailureAllPass(PropertyResults(r.value, inspectors, identities, msg), 0);
    }
  }

  method FullValidation(predicates: seq<(InvariantKey, PredicateDef)>, inspectors: seq<DryRunInspector>, identities: seq<DryRunInspector>, msg: string)
    returns (r: Result<(), PyError>)
    ensures r == FullValidationSpec(predicates, inspectors, identities, msg)
  {
    var invs := AsInvariants(predicates, Models.Application);
    if invs.Failure? {
      return Failure(invs.error);
    }
    r := ValidateEach(invs.value, inspectors, identities, msg);
  }

  /** The loop of `full_validation`: validate the prepared properties in order, stopping at the first failure. */
  method ValidateEach(invs: seq<(DryRunProperty, Invariant)>, inspectors: seq<DryRunInspector>, identities: seq<DryRunInspector>, msg: string)
    returns (r: Result<(), PyError>)
    ensures r == FirstFailure(PropertyResults(invs, inspectors, identities, msg), 0)
  {
    ghost var results := PropertyResults(invs, inspectors, identities, msg);
    var i := 0;
    while i < |invs|
      invariant 0 <= i <= |invs|
      invariant FirstFailure(results, 0) == FirstFailure(results, i)
    {
      var res := Validates(invs[i].1, invs[i].0, inspectors, identities, msg);
      if res.Failure? {
        return res;
      }
      i := i + 1;
    }
    return Success(());
  }

  /* --------------------------------------------------- inputs_and_invariants */

  /** The `"invariants"` entry of a scenario: absent (an empty dict), a dict, or some other object. */
  datatype ScenarioInvariants =
    | InvariantsDict(items: seq<(InvariantKey, PredicateDef)>)
    | NotADict(typeName: string, truthy: bool)

  /** A blackbox scenario: a dict with optional `"inputs"` and `"invariants"`, or something else. */
  datatype Scenario =
    | ScenarioDict(inputs: Option<PyValue>, invariants: ScenarioInvariants)
    | NotAScenario(typeName: string)

  datatype ScenarioInvariantsOut = RawPredicates(raw: ScenarioInvariants) | PreparedInvariants(invs: seq<(DryRunProperty, Invariant)>)

  /** The inputs are a non-empty list whose every element is a tuple. */
  predicate InputsWellFormed(inputs: Option<PyValue>) {
    inputs.Some? && inputs.value.PyList? && inputs.value.items != [] &&
    forall k :: 0 <= k < |inputs.value.items| ==> inputs.value.items[k].PyTuple?
  }

  function TupleItems(items: seq<PyValue>): (r: seq<seq<PyValue>>)
    requires forall k :: 0 <= k < |items| ==> items[k].PyTuple?
    ensures |r| == |items| && forall k :: 0 <= k < |items| ==> PyTuple(r[k]) == items[k]
  {
    seq(|items|, k requires 0 <= k < |items| => items[k].items)
  }

  /** `inputs_and_invariants`: check the scenario's shape, then return its inputs and invariants. */
  function InputsAndInvariants(scenario: Scenario, mode: Models.ExecutionMode, rawPredicates: bool): (r: Result<(seq<seq<PyValue>>, ScenarioInvariantsOut), PyError>)
    ensures scenario.NotAScenario? ==> r.Failure? && r.error.AssertionError?
    ensures scenario.ScenarioDict? && !InputsWellFormed(scenario.inputs) ==> r.Failure? && r.error.AssertionError?
    ensures r.Success? ==>
      scenario.ScenarioDict? && InputsWellFormed(scenario.inputs) &&
      |r.value.0| == |scenario.inputs.value.items| &&
      forall k :: 0 <= k < |r.value.0| ==> PyTuple(r.value.0[k]) == scenario.inputs.value.items[k]
    ensures r.Success? && rawPredicates ==> r.value.1 == RawPredicates(scenario.invariants)
    ensures r.Success? && !rawPredicates ==>
      scenario.invariants.InvariantsDict? && r.value.1.PreparedInvariants? &&
      AsInvariantsFrom(scenario.invariants.items, mode, 0) == Success(r.value.1.invs)
    ensures scenario.ScenarioDict? && InputsWellFormed(scenario.inputs) && scenario.invariants.InvariantsDict? && !rawPredicates ==>
      (r.Success? <==> AsInvariantsFrom(scenario.invariants.items, mode, 0).Success?)
    ensures scenario.ScenarioDict? && scenario.invariants.NotADict? && scenario.invariants.truthy ==> r.Failure?
  {
    if scenario.NotAScenario? then
      Failure(AssertionError(SCENARIO_NOT_DICT + scenario.typeName))
    else if !InputsWellFormed(scenario.inputs) then
      Failure(AssertionError(BAD_SCENARIO_INPUTS))
    else
      var inputs := TupleItems(scenario.inputs.value.items);
      match scenario.invariants
      case NotADict(t, truthy) =>
        if truthy then Failure(AssertionError(INVARIANTS_NOT_DICT))
        else if rawPredicates then Success((inputs, RawPredicates(scenario.invariants)))
        else Failure(Exception("AttributeError: '" + t + "' object has no attribute 'items'"))
      case InvariantsDict(items) =>
        if rawPredicates then Success((inputs, RawPredicates(scenario.invariants)))
        else
          var invs :- AsInvariantsFrom(items, mode, 0);
          Success((inputs, PreparedInvariants(invs)))
  }
}

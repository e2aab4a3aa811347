/**
 * The ABI contract executor's own logic (graviton/ace.py): input generation for bare
 * and method calls, input validation against the selector and the arity, and the choice
 * between given and generated inputs before a dry-run sequence.
 */
module Ace {
  import opened Wrappers
  import opened PyModel
  import opened AbiStrategy
  import opened AbiArgsStrategy

  datatype ContractExecutor = ContractExecutor(
    program: string,
    contract: Contract,
    argumentStrategy: Option<StrategyKind>,
    numDryruns: int,
    handleSelector: bool)

  /** `generate_inputs(method)`, starting at draw `pos`. */
  function GenerateInputs(e: ContractExecutor, methodName: Option<string>, o: Oracle, pos: nat)
    : (r: Result<(seq<seq<PyValue>>, nat), PyError>)
    ensures e.argumentStrategy.None? ==>
      r == Failure(AssertionError(NO_ARGUMENT_STRATEGY))
    ensures r.Success? ==> |r.value.0| == Max0(e.numDryruns)
    ensures e.argumentStrategy.Some? && !MethodGiven(methodName) ==>
      r.Success? && forall i :: 0 <= i < |r.value.0| ==> r.value.0[i] == []
    ensures r.Success? && MethodGiven(methodName) ==>
      Prefix(e.contract, e.handleSelector, methodName).Success? && ArgumentTypes(e.contract, methodName).Success?
      && var prefix := Prefix(e.contract, e.handleSelector, methodName).value;
         var types := ArgumentTypes(e.contract, methodName).value;
         forall i :: 0 <= i < |r.value.0| ==>
           |r.value.0[i]| == |prefix| + |types|
           && (e.handleSelector ==> r.value.0[i][0] == PyBytes(GetMethodByName(e.contract, methodName.value).value.selector))
           && RunShape(None, false, prefix, types, r.value.0[i])
  {
    if e.argumentStrategy.None? then
      Failure(AssertionError(NO_ARGUMENT_STRATEGY))
    else if !MethodGiven(methodName) then
      // bare calls receive no arguments
      Success((EmptyRuns(Max0(e.numDryruns)), pos))
    else
      var types :- ArgumentTypes(e.contract, methodName);
      var prefix := Prefix(e.contract, e.handleSelector, methodName);
      assert prefix.Success?;
      GenRuns(Max0(e.numDryruns), None, false, e.argumentStrategy.value, prefix.value, types, o, pos)
  }

  /** Why a set of inputs was refused. */
  datatype InputIssue =
    | BareCallArgs
    | WrongLength(index: nat, length: nat, expected: nat)
    | WrongSelector(index: nat, got: PyValue)

  datatype ValidationError = Rejected(issue: InputIssue) | Raised(error: PyError)

  /** The problem with one method-call input, given the selector and the number of declared arguments. */
  function InputProblem(args: seq<PyValue>, index: nat, selector: seq<byte>, nargs: nat): Option<InputIssue>
  {
    if |args| != 1 + nargs then Some(WrongLength(index, |args|, 1 + nargs))
    else if args[0] != PyBytes(selector) then Some(WrongSelector(index, args[0]))
    else None
  }

  /** The first offending input at index `from` or later. */
  function FirstOffending(inputs: seq<seq<PyValue>>, selector: seq<byte>, nargs: nat, from: nat): (r: Option<InputIssue>)
    requires from <= |inputs|
    decreases |inputs| - from
  {
    if from == |inputs| then None
    else
      var p := InputProblem(inputs[from], from, selector, nargs);
      if p.Some? then p else FirstOffending(inputs, selector, nargs, from + 1)
  }

  /** An input is acceptable iff it is the selector followed by one value per declared argument. */
  predicate WellFormedInput(args: seq<PyValue>, selector: seq<byte>, nargs: nat)
  {
    |args| == 1 + nargs && args[0] == PyBytes(selector)
  }

  lemma InputProblemIffIllFormed(args: seq<PyValue>, index: nat, selector: seq<byte>, nargs: nat)
    ensures InputProblem(args, index, selector, nargs).None? <==> WellFormedInput(args, selector, nargs)
  {
  }

  /**
   * The scan reports the least offending index: no issue iff every input from `from` on is
   * well formed, and an issue names an offending index all of whose predecessors are fine.
   */
  lemma {:induction false} FirstOffendingIsLeast(inputs: seq<seq<PyValue>>, selector: seq<byte>, nargs: nat, from: nat)
    requires from <= |inputs|
    ensures FirstOffending(inputs, selector, nargs, from).None? <==>
      forall j :: from <= j < |inputs| ==> WellFormedInput(inputs[j], selector, nargs)
    ensures FirstOffending(inputs, selector, nargs, from).Some? ==>
      var issue := FirstOffending(inputs, selector, nargs, from).value;
      !issue.BareCallArgs? && from <= issue.index < |inputs|
      && !WellFormedInput(inputs[issue.index], selector, nargs)
      && issue == InputProblem(inputs[issue.index], issue.index, selector, nargs).value
      && forall j :: from <= j < issue.index ==> WellFormedInput(inputs[j], selector, nargs)
    decreases |inputs| - from
  {
    if from < |inputs| {
      InputProblemIffIllFormed(inputs[from], from, selector, nargs);
      FirstOffendingIsLeast(inputs, selector, nargs, from + 1);
    }
  }

  /** `any(inputs)`: some tuple is non-empty. */
  predicate AnyNonEmpty(inputs: seq<seq<PyValue>>)
  {
    exists i :: 0 <= i < |inputs| && inputs[i] != []
  }

  /** The outcome `validate_inputs(method, inputs)` is specified by. */
  function Validation(e: ContractExecutor, methodName: Option<string>, inputs: seq<seq<PyValue>>): Result<(), ValidationError>
  {
    if !MethodGiven(methodName) then
      if AnyNonEmpty(inputs) then Failure(Rejected(BareCallArgs)) else Success(())
    else match GetMethodByName(e.contract, methodName.value)
      case Failure(err) => Failure(Raised(err))
      case Success(m) =>
        if !e.handleSelector || m.selector == [] then Success(())
        else match FirstOffending(inputs, m.selector, |m.argTypes|, 0)
          case None => Success(())
          case Some(issue) => Failure(Rejected(issue))
  }

  /** `validate_inputs(method, inputs)`: the loop stops at the first offending input. */
  method ValidateInputs(e: ContractExecutor, methodName: Option<string>, inputs: seq<seq<PyValue>>)
    returns (r: Result<(), ValidationError>)
    ensures r == Validation(e, methodName, inputs)
  {
    if !MethodGiven(methodName) {
      var k := 0;
      while k < |inputs|
        invariant 0 <= k <= |inputs|
        invariant forall j :: 0 <= j < k ==> inputs[j] == []
      {
        if inputs[k] != [] {
          return Failure(Rejected(BareCallArgs));
        }
        k := k + 1;
      }
      return Success(());
    }
    var argTypes := ArgumentTypes(e.contract, methodName);
    if argTypes.Failure? {
      return Failure(Raised(argTypes.error));
    }
    var error: Option<InputIssue> := None;
    if e.handleSelector {
      var m := GetMethodByName(e.contract, methodName.value).value;
      var selector := m.selector;
      var i := 0;
      while i < |inputs|
        invariant 0 <= i <= |inputs|
        invariant error.None?
        invariant selector != [] ==> FirstOffending(inputs, selector, |argTypes.value|, 0) == FirstOffending(inputs, selector, |argTypes.value|, i)
      {
        var targs := inputs[i];
        if selector != [] {
          if |targs| != 1 + |argTypes.value| {
            error := Some(WrongLength(i, |targs|, 1 + |argTypes.value|));
            break;
          }
          if targs[0] != PyBytes(selector) {
            error := Some(WrongSelector(i, targs[0]));
            break;
          }
        }
        i := i + 1;
      }
    }
    if error.Some? {
      return Failure(Rejected(error.value));
    }
    return Success(());
  }

  /** Inputs are valid iff each is the selector followed by one value per declared argument. */
  lemma ValidationAcceptsExactly(e: ContractExecutor, methodName: Option<string>, inputs: seq<seq<PyValue>>)
    requires MethodGiven(methodName) && e.handleSelector
    requires GetMethodByName(e.contract, methodName.value).Success?
    requires GetMethodByName(e.contract, methodName.value).value.selector != []
    ensures
      var m := GetMethodByName(e.contract, methodName.value).value;
      Validation(e, methodName, inputs).Success? <==>
        forall j :: 0 <= j < |inputs| ==> WellFormedInput(inputs[j], m.selector, |m.argTypes|)
  {
    var m := GetMethodByName(e.contract, methodName.value).value;
    FirstOffendingIsLeast(inputs, m.selector, |m.argTypes|, 0);
  }

  /** Generated method-call inputs pass validation when the selector is handled. */
  lemma GeneratedInputsValidate(e: ContractExecutor, methodName: Option<string>, o: Oracle, pos: nat)
    requires GenerateInputs(e, methodName, o, pos).Success?
    ensures Validation(e, methodName, GenerateInputs(e, methodName, o, pos).value.0).Success?
  {
    var runs := GenerateInputs(e, methodName, o, pos).value.0;
    if MethodGiven(methodName) && e.handleSelector {
      var m := GetMethodByName(e.contract, methodName.value).value;
      if m.selector != [] {
        assert forall j :: 0 <= j < |runs| ==> WellFormedInput(runs[j], m.selector, |m.argTypes|);
        ValidationAcceptsExactly(e, methodName, runs);
      }
    }
  }

  /**
   * The input selection of `dryrun_on_sequence`: generate when none are given, then
   * validate when asked to. The inputs that reach the executor are returned.
   */
  method SelectInputs(e: ContractExecutor, methodName: Option<string>, inputs: Option<seq<seq<PyValue>>>,
                      validation: bool, o: Oracle, pos: nat)
    returns (r: Result<seq<seq<PyValue>>, ValidationError>)
    ensures inputs.Some? && !validation ==> r == Success(inputs.value)
    ensures inputs.Some? && validation ==>
      r == (if Validation(e, methodName, inputs.value).Success? then Success(inputs.value)
            else Failure(Validation(e, methodName, inputs.value).error))
    ensures inputs.None? && GenerateInputs(e, methodName, o, pos).Failure? ==>
      r == Failure(Raised(GenerateInputs(e, methodName, o, pos).error))
    ensures inputs.None? && GenerateInputs(e, methodName, o, pos).Success? ==>
      r == Success(GenerateInputs(e, methodName, o, pos).value.0)
  {
    var chosen: seq<seq<PyValue>>;
    if inputs.None? {
      var generated := GenerateInputs(e, methodName, o, pos);
      if generated.Failure? {
        return Failure(Raised(generated.error));
      }
      chosen := generated.value.0;
      if validation {
        GeneratedInputsValidate(e, methodName, o, pos);
      }
    } else {
      chosen := inputs.value;
    }
    if validation {
      var v := ValidateInputs(e, methodName, chosen);
      if v.Failure? {
        return Failure(v.error);
      }
    }
    return Success(chosen);
  }
}

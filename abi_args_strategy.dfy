/**
 * Argument tuples for ABI method calls, and their adversarial mutations
 * (graviton/abi_args_strategy.py). The contract is given already parsed; each method
 * carries its 4-byte selector as an opaque value (ARC-4, "Method Selector").
 */
module AbiArgsStrategy {
  import opened Wrappers
  import opened PyModel
  import opened AbiStrategy

  // Messages of the exceptions raised here, as Python spells them.
  const NO_ARGUMENT_STRATEGY: string := "cannot generate inputs without an argument_strategy"
  const NO_METHOD_FOUND: string := "found 0 methods for "
  const NOT_SELECTOR_BYTE_REPLACE: string := "expected action=ABIArgsMod.selector_byte_replace"
  const INDEX_OUT_OF_RANGE: string := "index out of range"

  datatype ABIArgsMod =
    | SelectorByteInsert
    | SelectorByteDelete
    | SelectorByteReplace
    | ParameterDelete
    | ParameterAppend

  predicate IsSelectorMod(m: ABIArgsMod)
  {
    m.SelectorByteInsert? || m.SelectorByteDelete? || m.SelectorByteReplace?
  }

  /** An ABI methodName: name, argument types, return type (None for void) and its selector. */
  datatype MethodDesc = MethodDesc(name: string, argTypes: seq<AbiType>, returnType: Option<AbiType>, selector: seq<byte>)

  datatype Contract = Contract(name: string, methods: seq<MethodDesc>)

  /** `methodName.get_signature()`: `name(arg,types)ret`, with `void` for no return value. */
  function Signature(m: MethodDesc): (sig: string)
    ensures |sig| > |m.name| && sig[..|m.name|] == m.name && sig[|m.name|] == '('
  {
    m.name + "(" + JoinTypeNames(m.argTypes) + ")"
      + (match m.returnType case None => "void" case Some(t) => TypeName(t))
  }

  function MethodsNamed(ms: seq<MethodDesc>, name: string): (r: seq<MethodDesc>)
    ensures forall i :: 0 <= i < |r| ==> r[i].name == name && r[i] in ms
    ensures forall m :: m in ms && m.name == name ==> m in r
  {
    if ms == [] then []
    else (if ms[0].name == name then [ms[0]] else []) + MethodsNamed(ms[1..], name)
  }

  /** `contract.get_method_by_name(name)`: exactly one method may carry the name. */
  function GetMethodByName(c: Contract, name: string): (r: Result<MethodDesc, PyError>)
    ensures r.Success? <==> |MethodsNamed(c.methods, name)| == 1
    ensures r.Success? ==> r.value in c.methods && r.value.name == name
  {
    var found := MethodsNamed(c.methods, name);
    if |found| > 1 then Failure(KeyError("found " + NatToString(|found|) + " methods with the same name " + name))
    else if |found| == 0 then Failure(KeyError(NO_METHOD_FOUND + name))
    else Success(found[0])
  }

  /** A method name is given when it is a non-empty string (Python truthiness). */
  predicate MethodGiven(methodName: Option<string>)
  {
    methodName.Some? && methodName.value != ""
  }

  datatype ArgsStrategy = ArgsStrategy(
    program: string,
    contract: Contract,
    argumentStrategy: Option<StrategyKind>,
    numDryruns: int,
    handleSelector: bool,
    abiArgsMod: Option<ABIArgsMod>)

  /** Constructor defaults: random strategy, one dry run, the selector handled, no mutation. */
  function NewArgsStrategy(program: string, contract: Contract): (s: ArgsStrategy)
    ensures s.argumentStrategy == Some(Random) && s.numDryruns == 1 && s.handleSelector && s.abiArgsMod.None?
  {
    ArgsStrategy(program, contract, Some(Random), 1, true, None)
  }

  /** `method_signature`: None for a bare call. */
  function MethodSignature(c: Contract, methodName: Option<string>): (r: Result<Option<string>, PyError>)
    ensures !MethodGiven(methodName) ==> r == Success(None)
    ensures MethodGiven(methodName) ==>
      (r.Success? <==> GetMethodByName(c, methodName.value).Success?)
    ensures MethodGiven(methodName) && r.Success? ==> r.value == Some(Signature(GetMethodByName(c, methodName.value).value))
  {
    if !MethodGiven(methodName) then Success(None)
    else
      var m :- GetMethodByName(c, methodName.value);
      Success(Some(Signature(m)))
  }

  /** `argument_types`: [] for a bare call, else the method's declared types (selector excluded). */
  function ArgumentTypes(c: Contract, methodName: Option<string>): (r: Result<seq<AbiType>, PyError>)
    ensures !MethodGiven(methodName) ==> r == Success([])
    ensures MethodGiven(methodName) ==>
      (r.Success? <==> GetMethodByName(c, methodName.value).Success?)
    ensures MethodGiven(methodName) && r.Success? ==> r.value == GetMethodByName(c, methodName.value).value.argTypes
  {
    if !MethodGiven(methodName) then Success([])
    else
      var m :- GetMethodByName(c, methodName.value);
      Success(m.argTypes)
  }

  /** `num_args()` calls `argument_types()` with no methodName, so it is always 0. */
  function NumArgs(s: ArgsStrategy): (n: nat)
  {
    |ArgumentTypes(s.contract, None).value|
  }

  lemma NumArgsIsZero(s: ArgsStrategy)
    ensures NumArgs(s) == 0
  {
  }

  // ---------------------------------------------------------------------------
  // Selector mutations (selector_mod)
  // ---------------------------------------------------------------------------

  /** Python's clamped slices `s[:k]` and `s[k:]` for k >= 0. */
  function Take<T>(s: seq<T>, k: nat): (r: seq<T>)
    ensures |r| == if k <= |s| then k else |s|
    ensures r <= s
  {
    if k <= |s| then s[..k] else s
  }

  function Drop<T>(s: seq<T>, k: nat): (r: seq<T>)
    ensures Take(s, k) + r == s
  {
    if k <= |s| then s[k..] else []
  }

  /** `x + bytes([b]) + y` with `x, y = sel[:idx], sel[idx:]` */
  function InsertByte(sel: seq<byte>, idx: nat, b: byte): (r: seq<byte>)
    ensures |r| == |sel| + 1
    ensures idx <= |sel| ==> r == sel[..idx] + [b] + sel[idx..]
  {
    Take(sel, idx) + [b] + Drop(sel, idx)
  }

  /** `(x[:-1] + y) if x else y[:-1]` with `x, y = sel[:idx], sel[idx:]` */
  function DeleteByte(sel: seq<byte>, idx: nat): (r: seq<byte>)
    ensures sel != [] ==> |r| == |sel| - 1
    ensures sel == [] ==> r == []
    ensures 0 < idx <= |sel| ==> r == sel[..idx - 1] + sel[idx..]
    ensures idx == 0 && sel != [] ==> r == sel[..|sel| - 1]
  {
    var x, y := Take(sel, idx), Drop(sel, idx);
    if x != [] then x[..|x| - 1] + y
    else if y == [] then [] else y[..|y| - 1]
  }

  /** `sel[:idx] + bytes([(sel[idx] + 1) % 256]) + sel[idx + 1:]`; an IndexError past the end. */
  function ReplaceByte(sel: seq<byte>, idx: nat): (r: Result<seq<byte>, PyError>)
    ensures r.Success? <==> idx < |sel|
    ensures r.Success? ==> |r.value| == |sel|
    ensures r.Success? ==> forall j :: 0 <= j < |sel| && j != idx ==> r.value[j] == sel[j]
    ensures r.Success? ==> r.value[idx] as int == (sel[idx] as int + 1) % 256
  {
    if idx < |sel| then Success(sel[..idx] + [((sel[idx] as int + 1) % 256) as byte] + sel[idx + 1..])
    else Failure(IndexError(INDEX_OUT_OF_RANGE))
  }

  /** Deleting the byte just inserted restores the selector. */
  lemma DeleteUndoesInsert(sel: seq<byte>, idx: nat, b: byte)
    requires idx <= |sel|
    ensures DeleteByte(InsertByte(sel, idx, b), idx + 1) == sel
  {
    var ins := InsertByte(sel, idx, b);
    assert ins[..idx] == sel[..idx];
    assert ins[idx + 1..] == sel[idx..];
    assert sel[..idx] + sel[idx..] == sel;
  }

  /** Every selector mutation yields a selector different from the original. */
  lemma SelectorModsChangeSelector(sel: seq<byte>, idx: nat, b: byte)
    ensures InsertByte(sel, idx, b) != sel
    ensures sel != [] ==> DeleteByte(sel, idx) != sel
    ensures ReplaceByte(sel, idx).Success? ==> ReplaceByte(sel, idx).value != sel
  {
    if ReplaceByte(sel, idx).Success? {
      assert ReplaceByte(sel, idx).value[idx] != sel[idx];
    }
  }

  /**
   * `selector_mod(prefix)` of `generate`, drawing from `pos` on: the insertion or deletion
   * point is `randint(0, 4)`, the inserted byte `randbytes(1)`, and a replacement redraws
   * its index with `randint(0, 3)`.
   */
  function SelectorMod(action: Option<ABIArgsMod>, modifySelector: bool, prefix: seq<seq<byte>>, o: Oracle, pos: nat)
    : (r: Result<(seq<seq<byte>>, nat), PyError>)
    requires |prefix| <= 1
    ensures !(prefix != [] && modifySelector) ==> r == Success((prefix, pos))
    ensures r.Success? ==> |r.value.0| == |prefix| && r.value.1 >= pos
    ensures r.Success? && prefix != [] && modifySelector && prefix[0] != [] ==> r.value.0[0] != prefix[0]
    ensures r.Success? && prefix != [] && modifySelector ==> action.Some? && IsSelectorMod(action.value)
    ensures prefix != [] && modifySelector && !(action.Some? && IsSelectorMod(action.value)) ==>
      r == Failure(AssertionError(NOT_SELECTOR_BYTE_REPLACE))
    ensures prefix != [] && modifySelector && action == Some(SelectorByteInsert) ==>
      r.Success? && |r.value.0[0]| == |prefix[0]| + 1
      && exists idx: nat, b: byte :: idx <= 4 && r.value.0 == [InsertByte(prefix[0], idx, b)]
    ensures prefix != [] && modifySelector && action == Some(SelectorByteDelete) ==>
      r.Success? && (prefix[0] != [] ==> |r.value.0[0]| == |prefix[0]| - 1)
      && exists idx: nat :: idx <= 4 && r.value.0 == [DeleteByte(prefix[0], idx)]
    ensures prefix != [] && modifySelector && action == Some(SelectorByteReplace) && |prefix[0]| >= 4 ==> r.Success?
    ensures r.Success? && prefix != [] && modifySelector && action == Some(SelectorByteReplace) ==>
      |r.value.0[0]| == |prefix[0]|
      && exists idx: nat :: idx <= 3 && ReplaceByte(prefix[0], idx) == Success(r.value.0[0])
  {
    if !(prefix != [] && modifySelector) then Success((prefix, pos))
    else
      var sel := prefix[0];
      var idx := Draw(o, pos, 5);
      if action == Some(SelectorByteInsert) then
        var b := Draw(o, pos + 1, 256) as byte;
        SelectorModsChangeSelector(sel, idx, b);
        Success(([InsertByte(sel, idx, b)], pos + 2))
      else if action == Some(SelectorByteDelete) then
        SelectorModsChangeSelector(sel, idx, 0);
        Success(([DeleteByte(sel, idx)], pos + 1))
      else if action == Some(SelectorByteReplace) then
        var idx2 := Draw(o, pos + 1, 4);
        var replaced :- ReplaceByte(sel, idx2);
        SelectorModsChangeSelector(sel, idx2, 0);
        Success(([replaced], pos + 2))
      else
        Failure(AssertionError(NOT_SELECTOR_BYTE_REPLACE))
  }

  // ---------------------------------------------------------------------------
  // Argument mutations (args_mod) and whole tuples (gen_args, generate)
  // ---------------------------------------------------------------------------

  /** The type `parameter_append` draws its extra argument from. */
  const APPEND_ARGS_TYPE: AbiType := ByteType

  /** `args_mod(args)`: drop the last argument, or append one freshly drawn byte. */
  function ArgsMod(action: Option<ABIArgsMod>, kind: StrategyKind, args: seq<PyValue>, o: Oracle, pos: nat)
    : (r: Result<(seq<PyValue>, nat), PyError>)
    ensures r.Success?
    ensures action != Some(ParameterDelete) && action != Some(ParameterAppend) ==> r.value == (args, pos)
    ensures action == Some(ParameterDelete) ==>
      r.value.0 == (if args == [] then [] else args[..|args| - 1]) && r.value.1 == pos
    ensures action == Some(ParameterAppend) ==>
      |r.value.0| == |args| + 1 && r.value.0[..|args|] == args
      && Conforms(r.value.0[|args|], APPEND_ARGS_TYPE) && r.value.1 >= pos
  {
    if action != Some(ParameterDelete) && action != Some(ParameterAppend) then Success((args, pos))
    else if action == Some(ParameterDelete) then
      Success((if args == [] then args else args[..|args| - 1], pos))
    else
      var extra := Get(Strategy(kind, APPEND_ARGS_TYPE, None), o, pos);
      Success((args + [extra.value.0], extra.value.1))
  }

  /** `[self.get(t) for t in arg_types]`, in order. */
  function GenValues(kind: StrategyKind, types: seq<AbiType>, o: Oracle, pos: nat)
    : (r: Result<(seq<PyValue>, nat), PyError>)
    ensures r.Success? <==> forall i :: 0 <= i < |types| ==> Generable(types[i], None)
    ensures r.Success? ==> |r.value.0| == |types| && r.value.1 >= pos
    ensures r.Success? ==> forall i :: 0 <= i < |types| ==> Conforms(r.value.0[i], types[i])
  {
    if types == [] then Success(([], pos))
    else
      var head := Get(Strategy(kind, types[0], None), o, pos);
      if head.Failure? then Failure(head.error)
      else
        var tail := GenValues(kind, types[1..], o, head.value.1);
        assert forall i :: 1 <= i < |types| ==> types[i] == types[1..][i - 1];
        if tail.Failure? then Failure(tail.error)
        else Success(([head.value.0] + tail.value.0, tail.value.1))
  }

  function SelectorValues(prefix: seq<seq<byte>>): (vs: seq<PyValue>)
    ensures |vs| == |prefix|
    ensures forall i :: 0 <= i < |prefix| ==> vs[i] == PyBytes(prefix[i])
  {
    seq(|prefix|, i requires 0 <= i < |prefix| => PyBytes(prefix[i]))
  }

  /**
   * What every generated tuple looks like: the selector prefix (mutated when a selector mod
   * applies) followed by one conforming value per declared type, then one argument fewer
   * for `parameter_delete` or one extra byte value for `parameter_append`.
   */
  predicate RunShape(action: Option<ABIArgsMod>, modifySelector: bool, prefix: seq<seq<byte>>,
                     types: seq<AbiType>, run: seq<PyValue>)
  {
    var n := |prefix| + |types|;
    var changed := modifySelector && prefix != [] && action.Some? && IsSelectorMod(action.value);
    (action == Some(ParameterDelete) ==> |run| == Max0(n - 1))
    && (action == Some(ParameterAppend) ==> |run| == n + 1 && Conforms(run[n], APPEND_ARGS_TYPE))
    && (action != Some(ParameterDelete) && action != Some(ParameterAppend) ==> |run| == n)
    && (forall i :: 0 <= i < |prefix| && i < |run| ==>
          if changed then run[i].PyBytes? && (prefix[i] != [] ==> run[i].bs != prefix[i])
          else run[i] == PyBytes(prefix[i]))
    && (forall i :: 0 <= i < |types| && |prefix| + i < |run| ==> Conforms(run[|prefix| + i], types[i]))
  }

  /**
   * `gen_args()`: the (possibly mutated) selector prefix, one value per declared type,
   * then the argument mutation.
   */
  function GenArgs(action: Option<ABIArgsMod>, modifySelector: bool, kind: StrategyKind,
                   prefix: seq<seq<byte>>, types: seq<AbiType>, o: Oracle, pos: nat)
    : (r: Result<(seq<PyValue>, nat), PyError>)
    requires |prefix| <= 1
    ensures r.Success? <==>
      (forall i :: 0 <= i < |types| ==> Generable(types[i], None)) && SelectorMod(action, modifySelector, prefix, o, pos).Success?
    ensures r.Success? ==> r.value.1 >= pos && RunShape(action, modifySelector, prefix, types, r.value.0)
  {
    var (sels, p) :- SelectorMod(action, modifySelector, prefix, o, pos);
    var (vals, q) :- GenValues(kind, types, o, p);
    var r := ArgsMod(action, kind, SelectorValues(sels) + vals, o, q);
    TupleShape(action, modifySelector, kind, prefix, types, sels, vals, o, q);
    r
  }

  /** A modified prefix, conforming values and the argument mutation give a tuple of the run shape. */
  lemma TupleShape(action: Option<ABIArgsMod>, modifySelector: bool, kind: StrategyKind, prefix: seq<seq<byte>>,
                   types: seq<AbiType>, sels: seq<seq<byte>>, vals: seq<PyValue>, o: Oracle, q: nat)
    requires |sels| == |prefix| <= 1 && |vals| == |types|
    requires !(prefix != [] && modifySelector) ==> sels == prefix
    requires prefix != [] && modifySelector ==>
      action.Some? && IsSelectorMod(action.value) && (prefix[0] != [] ==> sels[0] != prefix[0])
    requires forall i :: 0 <= i < |types| ==> Conforms(vals[i], types[i])
    ensures RunShape(action, modifySelector, prefix, types, ArgsMod(action, kind, SelectorValues(sels) + vals, o, q).value.0)
  {
    var args := SelectorValues(sels) + vals;
    var run := ArgsMod(action, kind, args, o, q).value.0;
    var changed := modifySelector && prefix != [] && action.Some? && IsSelectorMod(action.value);
    ArgsModAgrees(action, kind, args, o, q);
    forall i | 0 <= i < |prefix| && i < |run|
      ensures if changed then run[i].PyBytes? && (prefix[i] != [] ==> run[i].bs != prefix[i]) else run[i] == PyBytes(prefix[i])
    {
      assert run[i] == PyBytes(sels[i]);
    }
    forall i | 0 <= i < |types| && |prefix| + i < |run|
      ensures Conforms(run[|prefix| + i], types[i])
    {
      assert run[|prefix| + i] == vals[i];
    }
  }

  /** The argument mutation keeps every position it does not drop or add. */
  lemma ArgsModAgrees(action: Option<ABIArgsMod>, kind: StrategyKind, args: seq<PyValue>, o: Oracle, q: nat)
    ensures forall i :: 0 <= i < |ArgsMod(action, kind, args, o, q).value.0| && i < |args| ==>
      ArgsMod(action, kind, args, o, q).value.0[i] == args[i]
  {
    var run := ArgsMod(action, kind, args, o, q).value.0;
    if action == Some(ParameterAppend) {
      assert forall i :: 0 <= i < |args| ==> run[i] == run[..|args|][i];
    }
  }


  function Max0(n: int): nat
  {
    if n < 0 then 0 else n
  }

  /** `[gen_args() for _ in range(n)]`: the draws of each tuple follow those of the previous one. */
  function GenRuns(n: nat, action: Option<ABIArgsMod>, modifySelector: bool, kind: StrategyKind,
                   prefix: seq<seq<byte>>, types: seq<AbiType>, o: Oracle, pos: nat)
    : (r: Result<(seq<seq<PyValue>>, nat), PyError>)
    requires |prefix| <= 1
    ensures r.Success? ==> |r.value.0| == n && r.value.1 >= pos
    ensures r.Success? ==> forall i :: 0 <= i < n ==> RunShape(action, modifySelector, prefix, types, r.value.0[i])
  {
    if n == 0 then Success(([], pos))
    else
      var head := GenArgs(action, modifySelector, kind, prefix, types, o, pos);
      if head.Failure? then Failure(head.error)
      else
        var tail := GenRuns(n - 1, action, modifySelector, kind, prefix, types, o, head.value.1);
        if tail.Failure? then tail
        else Success(([head.value.0] + tail.value.0, tail.value.1))
  }

  /** The selector prefix: `[selector]` when the selector is handled and a method is named. */
  function Prefix(c: Contract, handleSelector: bool, methodName: Option<string>): (r: Result<seq<seq<byte>>, PyError>)
    ensures r.Success? ==> |r.value| <= 1
    ensures !(handleSelector && MethodGiven(methodName)) ==> r == Success([])
    ensures handleSelector && MethodGiven(methodName) ==>
      r == (var m := GetMethodByName(c, methodName.value);
            if m.Success? then Success([m.value.selector]) else Failure(m.error))
  {
    if handleSelector && MethodGiven(methodName) then
      var m :- GetMethodByName(c, methodName.value);
      Success([m.selector])
    else Success([])
  }

  /** `[tuple() for _ in range(n)]` */
  function EmptyRuns(n: nat): (r: seq<seq<PyValue>>)
    ensures |r| == n && forall i :: 0 <= i < n ==> r[i] == []
  {
    if n == 0 then [] else [[]] + EmptyRuns(n - 1)
  }

  const NO_SELECTOR_TO_MODIFY: string := "we need to modify the selector, but we don't have one available to modify"

  /** `ABIArgsStrategy.generate(methodName)` starting at draw `pos`. */
  function Generate(s: ArgsStrategy, methodName: Option<string>, o: Oracle, pos: nat)
    : (r: Result<(seq<seq<PyValue>>, nat), PyError>)
    ensures s.argumentStrategy.None? ==>
      r == Failure(AssertionError(NO_ARGUMENT_STRATEGY))
    ensures r.Success? ==> |r.value.0| == Max0(s.numDryruns)
    ensures s.argumentStrategy.Some? && !MethodGiven(methodName) && s.abiArgsMod.None? ==>
      r.Success? && forall i :: 0 <= i < |r.value.0| ==> r.value.0[i] == []
    ensures s.argumentStrategy.Some? && s.abiArgsMod.Some? && IsSelectorMod(s.abiArgsMod.value) ==>
      (!(s.handleSelector && MethodGiven(methodName)) ==> r.Failure?)
      && (!MethodGiven(methodName) ==> r == Failure(AssertionError(NO_SELECTOR_TO_MODIFY)))
    ensures r.Success? ==>
      var modifySelector := s.abiArgsMod.Some? && IsSelectorMod(s.abiArgsMod.value);
      Prefix(s.contract, s.handleSelector, methodName).Success? && ArgumentTypes(s.contract, methodName).Success?
      && forall i :: 0 <= i < |r.value.0| ==>
           RunShape(s.abiArgsMod, modifySelector, Prefix(s.contract, s.handleSelector, methodName).value, ArgumentTypes(s.contract, methodName).value, r.value.0[i])
  {
    if s.argumentStrategy.None? then
      Failure(AssertionError(NO_ARGUMENT_STRATEGY))
    else if !(MethodGiven(methodName) || s.abiArgsMod.Some?) then
      // bare calls receive no arguments
      Success((EmptyRuns(Max0(s.numDryruns)), pos))
    else
      var types :- ArgumentTypes(s.contract, methodName);
      var prefix := Prefix(s.contract, s.handleSelector, methodName);
      assert prefix.Success?;
      var prefix := prefix.value;
      var modifySelector := s.abiArgsMod.Some? && IsSelectorMod(s.abiArgsMod.value);
      if modifySelector && prefix == [] then Failure(AssertionError(NO_SELECTOR_TO_MODIFY))
      else GenRuns(Max0(s.numDryruns), s.abiArgsMod, modifySelector, s.argumentStrategy.value, prefix, types, o, pos)
  }
}

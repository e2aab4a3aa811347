/**
 * Argument encoding and executor preparation (graviton/blackbox.py): the uint64 / UTF-8
 * convention for plain arguments, the 16-argument limit and its jammed tail, transaction
 * parameters, method-selector adaptation, and the shape of a run's inputs.
 */
module Blackbox {
  import opened Wrappers
  import opened PyModel
  import Models
  import AbiStrategy
  import DryRun
  import Inspector

  // Messages of the exceptions raised here, as Python spells them.
  const SELECTOR_NOT_FIRST: string := "args_out[0] should have been the selector"
  const NEGATIVE_ARG: string := "can't handle negative arguments but was given "
  const CANNOT_CONVERT_TO_BYTES: string := "cannot convert to bytes"
  const ARGS_MUST_BE_TUPLES: string := "each args in inputs list must be a tuple"
  const TOO_MANY_PLAIN_ARGS: string := "for non-ABI app calls, there is no specification for encoding more than 16 arguments"
  const BAD_INPUTS_TYPE: string := "inputs must be of type list or map (for multiple args) or tuple (for single args)"
  const INT_TOO_BIG: string := "int too big to convert"
  const ARGS_OUT_LENGTH_MISMATCH: string := "len(args_out) is incompatible with len(method.args): LEFT should be equal or exactly RIGHT + 1"
  const ARGS_LENGTH_MISMATCH: string := "mismatch between args (length="
  const ABI_TYPES_LENGTH: string := ") and abi_types (length="
  const NO_INPUT_ARGS: string := "must provide at least one input args tuple"
  const JAMMED_ARG_ERROR: string := "problem encoding arg at index (15): can't handle arg with its abi-type"
  const ARG_INDEX_PROBLEM: string := "problem encoding arg at index ("
  const ARG_TYPE_PROBLEM: string := "can't handle arg with its abi-type: "
  const UNEXPECTED_NONE: string := "unexpected None"

  type EncodingType = Inspector.EncodingType

  // ---------------------------------------------------------------------------
  // Plain encodings
  // ---------------------------------------------------------------------------

  function Pow256(n: nat): (p: nat)
    ensures p >= 1
  {
    if n == 0 then 1 else 256 * Pow256(n - 1)
  }

  /** `n.to_bytes(len, "big")` for an `n` that fits. */
  function BigEndian(n: nat, len: nat): (bs: seq<byte>)
    requires n < Pow256(len)
    ensures |bs| == len
  {
    if len == 0 then []
    else BigEndian(n / 256, len - 1) + [(n % 256) as byte]
  }

  /** `int.from_bytes(bs, "big")` */
  function FromBigEndian(bs: seq<byte>): (n: nat)
    ensures n < Pow256(|bs|)
  {
    if bs == [] then 0
    else FromBigEndian(bs[..|bs| - 1]) * 256 + bs[|bs| - 1] as nat
  }

  /** Decoding the big-endian bytes of `n` gives `n` back. */
  lemma {:induction false} BigEndianRoundTrip(n: nat, len: nat)
    requires n < Pow256(len)
    ensures FromBigEndian(BigEndian(n, len)) == n
  {
    if len > 0 {
      var bs := BigEndian(n, len);
      BigEndianRoundTrip(n / 256, len - 1);
      assert bs[..|bs| - 1] == BigEndian(n / 256, len - 1);
      assert n == (n / 256) * 256 + n % 256;
    }
  }

  /** 2**64, the bound of a TEAL uint64. */
  const UINT64_BOUND: nat := 0x1_0000_0000_0000_0000

  lemma Pow256Of8()
    ensures Pow256(8) == UINT64_BOUND
  {
  }

  /** The UTF-8 encoding of one Unicode scalar value. */
  function Utf8Char(c: char): (bs: seq<byte>)
    ensures 1 <= |bs| <= 4
    ensures (c as int) < 128 ==> bs == [c as int as byte]
  {
    var n := c as int;
    if n < 0x80 then [n as byte]
    else if n < 0x800 then [(0xC0 + n / 64) as byte, (0x80 + n % 64) as byte]
    else if n < 0x10000 then
      [(0xE0 + n / 4096) as byte, (0x80 + (n / 64) % 64) as byte, (0x80 + n % 64) as byte]
    else
      [(0xF0 + n / 262144) as byte, (0x80 + (n / 4096) % 64) as byte, (0x80 + (n / 64) % 64) as byte,
       (0x80 + n % 64) as byte]
  }

  /** `bytes(s, "utf-8")` */
  function Utf8(s: string): (bs: seq<byte>)
    ensures |s| <= |bs| <= 4 * |s|
  {
    if s == [] then [] else Utf8Char(s[0]) + Utf8(s[1..])
  }

  predicate IsAscii(s: string)
  {
    forall i :: 0 <= i < |s| ==> (s[i] as int) < 128
  }

  /** An ASCII string encodes to its character codes, one byte each. */
  lemma {:induction false} Utf8OfAscii(s: string)
    requires IsAscii(s)
    ensures |Utf8(s)| == |s|
    ensures forall i :: 0 <= i < |s| ==> Utf8(s)[i] as int == s[i] as int
  {
    if s != [] {
      assert forall i :: 0 <= i < |s[1..]| ==> s[1..][i] == s[i + 1];
      Utf8OfAscii(s[1..]);
    }
  }

  /** `isinstance(x, int)`: a bool is an int too; its value as an int. */
  predicate IsInt(x: PyValue)
  {
    x.PyInt? || x.PyBool?
  }

  function IntValue(x: PyValue): int
    requires IsInt(x)
  {
    if x.PyInt? then x.i else if x.b then 1 else 0
  }

  /** `x.to_bytes(8, "big")`: an OverflowError outside [0, 2**64). */
  function Uint64Bytes(v: int): (r: Result<seq<byte>, PyError>)
    ensures r.Success? <==> 0 <= v < UINT64_BOUND
    ensures r.Success? ==> |r.value| == 8 && FromBigEndian(r.value) == v
  {
    Pow256Of8();
    if 0 <= v < UINT64_BOUND then
      BigEndianRoundTrip(v, 8);
      Success(BigEndian(v, 8))
    else Failure(OverflowError(INT_TOO_BIG))
  }

  /**
   * `_to_bytes(x, only_attempt_int_conversion)`: bytes are kept, an int becomes 8 big-endian
   * bytes, and a str becomes its UTF-8 bytes unless only ints are to be converted.
   */
  function ToBytes(x: PyValue, onlyAttemptIntConversion: bool): (r: Result<PyValue, PyError>)
    ensures x.PyBytes? ==> r == Success(x)
    ensures IsInt(x) ==>
      (r.Success? <==> 0 <= IntValue(x) < UINT64_BOUND)
      && (r.Success? ==> r.value.PyBytes? && |r.value.bs| == 8 && FromBigEndian(r.value.bs) == IntValue(x))
    ensures !x.PyBytes? && !IsInt(x) && onlyAttemptIntConversion ==> r == Success(x)
    ensures x.PyStr? && !onlyAttemptIntConversion ==> r == Success(PyBytes(Utf8(x.s)))
    ensures !onlyAttemptIntConversion && r.Success? ==> r.value.PyBytes?
  {
    if x.PyBytes? then Success(x)
    else if IsInt(x) then
      var bs :- Uint64Bytes(IntValue(x));
      Success(PyBytes(bs))
    else if onlyAttemptIntConversion then Success(x)
    else if x.PyStr? then Success(PyBytes(Utf8(x.s)))
    else Failure(TypeError(CANNOT_CONVERT_TO_BYTES))
  }

  /** A plain argument: bytes, a non-negative int, or a str. */
  predicate PlainArg(x: PyValue)
  {
    x.PyBytes? || x.PyStr? || (IsInt(x) && IntValue(x) >= 0)
  }

  /**
   * `_partial_encode_assert(arg, abi_type, msg)`: with an ABI type, the arg's ABI encoding
   * (a failure becomes an AssertionError); without one, a check that the arg is plain.
   */
  function PartialEncodeAssert(arg: PyValue, abiType: EncodingType, msg: string,
                               encoder: (EncodingType, PyValue) -> Result<seq<byte>, string>)
    : (r: Result<Option<seq<byte>>, PyError>)
    ensures Inspector.EncodingTruthy(abiType) ==>
      (r.Success? <==> encoder(abiType, arg).Success?)
      && (r.Success? ==> r.value == Some(encoder(abiType, arg).value))
    ensures !Inspector.EncodingTruthy(abiType) ==> (r.Success? <==> PlainArg(arg)) && (r.Success? ==> r.value.None?)
    ensures r.Failure? ==> r.error.AssertionError?
  {
    var prefix := if msg != "" then msg + ": " else "";
    if Inspector.EncodingTruthy(abiType) then
      var encoded := encoder(abiType, arg);
      if encoded.Success? then Success(Some(encoded.value))
      else Failure(AssertionError(prefix + ARG_TYPE_PROBLEM + encoded.error))
    else if !(arg.PyBytes? || arg.PyStr? || IsInt(arg)) then
      Failure(AssertionError(prefix + "can't handle arg"))
    else if IsInt(arg) && IntValue(arg) < 0 then
      Failure(AssertionError(NEGATIVE_ARG + IntToString(IntValue(arg))))
    else Success(None)
  }

  /** `_encode_arg(arg, idx, abi_type)`: the ABI encoding when typed, else ints to bytes and the rest as is. */
  function EncodeArg(arg: PyValue, idx: int, abiType: EncodingType,
                     encoder: (EncodingType, PyValue) -> Result<seq<byte>, string>)
    : (r: Result<PyValue, PyError>)
    ensures Inspector.EncodingTruthy(abiType) ==>
      (r.Success? <==> encoder(abiType, arg).Success?)
      && (r.Success? ==> r.value == PyBytes(encoder(abiType, arg).value))
    ensures !Inspector.EncodingTruthy(abiType) ==>
      (r.Success? <==> PlainArg(arg) && (IsInt(arg) ==> IntValue(arg) < UINT64_BOUND))
      && (r.Success? && IsInt(arg) ==> r.value.PyBytes? && FromBigEndian(r.value.bs) == IntValue(arg))
      && (r.Success? && !IsInt(arg) ==> r.value == arg)
  {
    var partial :- PartialEncodeAssert(arg, abiType, ARG_INDEX_PROBLEM + IntToString(idx) + ")", encoder);
    if partial.Some? then Success(PyBytes(partial.value))
    else ToBytes(arg, true)
  }

  // ---------------------------------------------------------------------------
  // encode_args
  // ---------------------------------------------------------------------------

  /** `atc.AtomicTransactionComposer.MAX_APP_ARG_LIMIT` */
  const MAX_APP_ARG_LIMIT: nat := 16

  /** The type `encode_args` uses for argument `i`: the given one, or None past the end of the list. */
  function ArgTypeAt(abiTypes: Option<seq<EncodingType>>, i: nat): EncodingType
  {
    if abiTypes.Some? && i < |abiTypes.value| then abiTypes.value[i] else Inspector.NoEncoding
  }

  /**
   * The types `encode_args` works with for `n` arguments: the given list, padded with None
   * up to `n` when it is shorter, and kept whole when it is longer.
   */
  function ArgTypes(abiTypes: Option<seq<EncodingType>>, n: nat): (ts: seq<EncodingType>)
    ensures |ts| == if abiTypes.Some? && |abiTypes.value| > n then |abiTypes.value| else n
    ensures forall i :: 0 <= i < |ts| ==> ts[i] == ArgTypeAt(abiTypes, i)
    ensures abiTypes.Some? && |abiTypes.value| >= n ==> ts == abiTypes.value
  {
    if abiTypes.Some? && |abiTypes.value| >= n then abiTypes.value
    else seq(n, i requires 0 <= i < n => ArgTypeAt(abiTypes, i))
  }

  /** Encodes one argument at its index with its type. */
  type ArgEncoder = (PyValue, nat, EncodingType) -> Result<PyValue, PyError>

  /**
   * The list comprehension of `encode_args` from argument `i` on: each argument encoded at its
   * index with its type, the first failure winning.
   */
  function EncodeEach(args: seq<PyValue>, types: seq<EncodingType>, i: nat, encode: ArgEncoder)
    : (r: Result<seq<PyValue>, PyError>)
    requires |types| >= |args| && i <= |args|
    ensures r.Success? <==> forall j :: i <= j < |args| ==> encode(args[j], j, types[j]).Success?
    ensures r.Success? ==>
      |r.value| == |args| - i && forall j :: i <= j < |args| ==> Success(r.value[j - i]) == encode(args[j], j, types[j])
    decreases |args| - i
  {
    if i == |args| then Success([])
    else
      var head := encode(args[i], i, types[i]);
      if head.Failure? then Failure(head.error)
      else
        var tail := EncodeEach(args, types, i + 1, encode);
        if tail.Failure? then Failure(tail.error)
        else Success([head.value] + tail.value)
  }

  /** `abi.TupleType(abi_types[15:])`: a tuple type exists only when every part is an ABI type. */
  function JammedType(types: seq<EncodingType>): (t: Option<AbiStrategy.AbiType>)
    ensures t.Some? <==> forall i :: 0 <= i < |types| ==> types[i].AbiEncoding?
    ensures t.Some? ==> t.value.TupleType? && |t.value.childTypes| == |types|
  {
    if forall i :: 0 <= i < |types| ==> types[i].AbiEncoding? then
      Some(AbiStrategy.TupleType(seq(|types|, i requires 0 <= i < |types| => types[i].abiType)))
    else None
  }

  /**
   * `encode_args` past the limit: the first 15 arguments one by one, the rest jammed into one
   * tuple whose type is made of every type from index 15 on.
   */
  function EncodeJammed(args: seq<PyValue>, types: seq<EncodingType>,
                        encoder: (EncodingType, PyValue) -> Result<seq<byte>, string>)
    : (r: Result<seq<PyValue>, PyError>)
    requires |types| >= |args| > MAX_APP_ARG_LIMIT
    ensures r.Success? ==>
      |r.value| == MAX_APP_ARG_LIMIT
      && (forall i :: 0 <= i < MAX_APP_ARG_LIMIT - 1 ==> Success(r.value[i]) == EncodeArg(args[i], i, types[i], encoder))
      && JammedType(types[MAX_APP_ARG_LIMIT - 1..]).Some?
      && Success(r.value[MAX_APP_ARG_LIMIT - 1]) ==
           EncodeArg(PyTuple(args[MAX_APP_ARG_LIMIT - 1..]), MAX_APP_ARG_LIMIT - 1,
                     Inspector.AbiEncoding(JammedType(types[MAX_APP_ARG_LIMIT - 1..]).value), encoder)
  {
    var finalIndex := MAX_APP_ARG_LIMIT - 1;
    var encode: ArgEncoder := (a, j, t) => EncodeArg(a, j, t, encoder);
    var simple :- EncodeEach(args[..finalIndex], types[..finalIndex], 0, encode);
    var jamType := JammedType(types[finalIndex..]);
    if jamType.None? then
      Failure(AssertionError(JAMMED_ARG_ERROR))
    else
      var jammed :- EncodeArg(PyTuple(args[finalIndex..]), finalIndex, Inspector.AbiEncoding(jamType.value), encoder);
      assert forall i :: 0 <= i < finalIndex ==> args[..finalIndex][i] == args[i] && types[..finalIndex][i] == types[i];
      Success(simple + [jammed])
  }

  /**
   * `encode_args(args, abi_types, validation)`: with validation the counts must agree; at most
   * 16 arguments are encoded one by one; beyond that, with types, the first 15 are encoded one
   * by one and the rest are encoded together as one tuple.
   */
  function EncodeArgs(args: seq<PyValue>, abiTypes: Option<seq<EncodingType>>, validation: bool,
                      encoder: (EncodingType, PyValue) -> Result<seq<byte>, string>)
    : (r: Result<seq<PyValue>, PyError>)
    ensures abiTypes.Some? && validation && |args| != |abiTypes.value| ==> r.Failure? && r.error.AssertionError?
    ensures |args| > MAX_APP_ARG_LIMIT && abiTypes.None? ==> r.Failure? && r.error.AssertionError?
    ensures r.Success? && |args| <= MAX_APP_ARG_LIMIT ==>
      |r.value| == |args|
      && forall i :: 0 <= i < |args| ==> Success(r.value[i]) == EncodeArg(args[i], i, ArgTypeAt(abiTypes, i), encoder)
    ensures r.Success? && |args| > MAX_APP_ARG_LIMIT ==>
      |r.value| == MAX_APP_ARG_LIMIT
      && (forall i :: 0 <= i < MAX_APP_ARG_LIMIT - 1 ==>
            Success(r.value[i]) == EncodeArg(args[i], i, ArgTypeAt(abiTypes, i), encoder))
      && JammedType(ArgTypes(abiTypes, |args|)[MAX_APP_ARG_LIMIT - 1..]).Some?
      && |JammedType(ArgTypes(abiTypes, |args|)[MAX_APP_ARG_LIMIT - 1..]).value.childTypes|
           == (if |abiTypes.value| > |args| then |abiTypes.value| else |args|) - (MAX_APP_ARG_LIMIT - 1)
      && Success(r.value[MAX_APP_ARG_LIMIT - 1]) ==
           EncodeArg(PyTuple(args[MAX_APP_ARG_LIMIT - 1..]), MAX_APP_ARG_LIMIT - 1,
                     Inspector.AbiEncoding(JammedType(ArgTypes(abiTypes, |args|)[MAX_APP_ARG_LIMIT - 1..]).value), encoder)
  {
    if abiTypes.Some? && validation && |args| != |abiTypes.value| then
      Failure(AssertionError(ARGS_LENGTH_MISMATCH + IntToString(|args|) + ABI_TYPES_LENGTH
        + IntToString(|abiTypes.value|) + ")"))
    else
      var types := ArgTypes(abiTypes, |args|);
      if |args| <= MAX_APP_ARG_LIMIT then
        EncodeEach(args, types, 0, (a, j, t) => EncodeArg(a, j, t, encoder))
      else if abiTypes.None? then
        Failure(AssertionError(TOO_MANY_PLAIN_ARGS))
      else
        EncodeJammed(args, types, encoder)
  }

  /**
   * Without ABI types, at most 16 plain arguments below 2**64 encode; each int round-trips
   * through its 8 big-endian bytes and every other argument is passed unchanged.
   */
  lemma PlainArgsEncode(args: seq<PyValue>, encoder: (EncodingType, PyValue) -> Result<seq<byte>, string>)
    requires |args| <= MAX_APP_ARG_LIMIT
    requires forall i :: 0 <= i < |args| ==> PlainArg(args[i]) && (IsInt(args[i]) ==> IntValue(args[i]) < UINT64_BOUND)
    ensures EncodeArgs(args, None, true, encoder).Success?
    ensures var r := EncodeArgs(args, None, true, encoder).value;
      |r| == |args|
      && (forall i :: 0 <= i < |args| && IsInt(args[i]) ==> r[i].PyBytes? && |r[i].bs| == 8 && FromBigEndian(r[i].bs) == IntValue(args[i]))
      && (forall i :: 0 <= i < |args| && !IsInt(args[i]) ==> r[i] == args[i])
  {
    var types := ArgTypes(None, |args|);
    assert forall i :: 0 <= i < |args| ==> types[i] == Inspector.NoEncoding;
    var r := EncodeArgs(args, None, true, encoder).value;
    forall i | 0 <= i < |args| && IsInt(args[i])
      ensures r[i].PyBytes? && |r[i].bs| == 8
    {
      assert Success(r[i]) == EncodeArg(args[i], i, Inspector.NoEncoding, encoder);
      assert ToBytes(args[i], true) == Success(r[i]);
    }
  }

  // ---------------------------------------------------------------------------
  // DryRunTransactionParams
  // ---------------------------------------------------------------------------

  datatype TxnParam =
    | Sender | Sp | Note | Lease | RekeyTo | Receiver | Amt | CloseRemainderTo | Index | OnComplete
    | LocalSchema | GlobalSchema | ApprovalProgram | ClearProgram | AppArgs | Accounts | ForeignApps
    | ForeignAssets | ExtraPages | DryrunAccounts | BoxRefs

  /** The fields in declaration order, as `dataclasses.asdict` lists them. */
  const ALL_PARAMS: seq<TxnParam> := [
    Sender, Sp, Note, Lease, RekeyTo, Receiver, Amt, CloseRemainderTo, Index, OnComplete,
    LocalSchema, GlobalSchema, ApprovalProgram, ClearProgram, AppArgs, Accounts, ForeignApps,
    ForeignAssets, ExtraPages, DryrunAccounts, BoxRefs]

  /** The position of a field in declaration order. */
  function ParamIndex(f: TxnParam): (k: nat)
    ensures k < |ALL_PARAMS| && ALL_PARAMS[k] == f
  {
    match f
    case Sender => 0
    case Sp => 1
    case Note => 2
    case Lease => 3
    case RekeyTo => 4
    case Receiver => 5
    case Amt => 6
    case CloseRemainderTo => 7
    case Index => 8
    case OnComplete => 9
    case LocalSchema => 10
    case GlobalSchema => 11
    case ApprovalProgram => 12
    case ClearProgram => 13
    case AppArgs => 14
    case Accounts => 15
    case ForeignApps => 16
    case ForeignAssets => 17
    case ExtraPages => 18
    case DryrunAccounts => 19
    case BoxRefs => 20
  }

  /** Every field is listed. */
  lemma AllParamsListed()
    ensures forall f :: f in ALL_PARAMS
  {
    forall f ensures f in ALL_PARAMS {
      assert ALL_PARAMS[ParamIndex(f)] == f;
    }
  }

  /** Each field is listed once: its position is the one it is listed at. */
  lemma ParamIndexOfListed(j: nat)
    requires j < |ALL_PARAMS|
    ensures ParamIndex(ALL_PARAMS[j]) == j
  {
  }

  function ParamName(f: TxnParam): string
  {
    match f
    case Sender => "sender"
    case Sp => "sp"
    case Note => "note"
    case Lease => "lease"
    case RekeyTo => "rekey_to"
    case Receiver => "receiver"
    case Amt => "amt"
    case CloseRemainderTo => "close_remainder_to"
    case Index => "index"
    case OnComplete => "on_complete"
    case LocalSchema => "local_schema"
    case GlobalSchema => "global_schema"
    case ApprovalProgram => "approval_program"
    case ClearProgram => "clear_program"
    case AppArgs => "app_args"
    case Accounts => "accounts"
    case ForeignApps => "foreign_apps"
    case ForeignAssets => "foreign_assets"
    case ExtraPages => "extra_pages"
    case DryrunAccounts => "dryrun_accounts"
    case BoxRefs => "box_refs"
  }

  /** The field a dict key names, if any. */
  function ParamNamed(key: string): (f: Option<TxnParam>)
    ensures f.Some? ==> ParamName(f.value) == key
  {
    if key == "sender" then Some(Sender)
    else if key == "sp" then Some(Sp)
    else if key == "note" then Some(Note)
    else if key == "lease" then Some(Lease)
    else if key == "rekey_to" then Some(RekeyTo)
    else if key == "receiver" then Some(Receiver)
    else if key == "amt" then Some(Amt)
    else if key == "close_remainder_to" then Some(CloseRemainderTo)
    else if key == "index" then Some(Index)
    else if key == "on_complete" then Some(OnComplete)
    else if key == "local_schema" then Some(LocalSchema)
    else if key == "global_schema" then Some(GlobalSchema)
    else if key == "approval_program" then Some(ApprovalProgram)
    else if key == "clear_program" then Some(ClearProgram)
    else if key == "app_args" then Some(AppArgs)
    else if key == "accounts" then Some(Accounts)
    else if key == "foreign_apps" then Some(ForeignApps)
    else if key == "foreign_assets" then Some(ForeignAssets)
    else if key == "extra_pages" then Some(ExtraPages)
    else if key == "dryrun_accounts" then Some(DryrunAccounts)
    else if key == "box_refs" then Some(BoxRefs)
    else None
  }

  /** Every field is found back from its name. */
  lemma ParamNameRoundTrip(f: TxnParam)
    ensures ParamNamed(ParamName(f)) == Some(f)
  {
  }

  /** Distinct fields have distinct names, so a dict keyed by name loses nothing. */
  lemma ParamNamesDistinct(f: TxnParam, g: TxnParam)
    ensures ParamName(f) == ParamName(g) ==> f == g
  {
    ParamNameRoundTrip(f);
    ParamNameRoundTrip(g);
  }

  lemma ParamNamesInjective()
    ensures forall f :: ParamNamed(ParamName(f)) == Some(f)
    ensures forall f, g :: ParamName(f) == ParamName(g) ==> f == g
  {
    forall f ensures ParamNamed(ParamName(f)) == Some(f) {
      ParamNameRoundTrip(f);
    }
  }

  /** The dataclass defaults: None everywhere except the empty `dryrun_accounts` list. */
  function ParamDefault(f: TxnParam): PyValue
  {
    if f == DryrunAccounts then PyList([]) else PyNone
  }

  /** The keyword arguments `for_app` accepts. */
  predicate ForAppParam(f: TxnParam)
  {
    !(f == Receiver || f == Amt || f == CloseRemainderTo || f == BoxRefs)
  }

  /** A keyword argument passed to `for_app`, None when not passed. */
  function GivenOr(given: map<TxnParam, PyValue>, f: TxnParam, dflt: PyValue): PyValue
  {
    if f in given then given[f] else dflt
  }

  /** `CREATION_APP_CALL` and `EXISTING_APP_CALL` */
  const CREATION_APP_CALL: int := 0
  const EXISTING_APP_CALL: int := 42

  /** What `for_app(is_app_create, **given)` stores in field `f`. */
  function ForAppValue(isAppCreate: bool, given: map<TxnParam, PyValue>, f: TxnParam): (v: PyValue)
    ensures f == Index && GivenOr(given, Index, PyNone).PyNone? ==>
      v == PyInt(if isAppCreate then CREATION_APP_CALL else EXISTING_APP_CALL)
    ensures f == Index && !GivenOr(given, Index, PyNone).PyNone? ==> v == given[Index]
    ensures f == Sender ==> Truthy(v) && (Truthy(GivenOr(given, Sender, PyNone)) ==> v == given[Sender])
    ensures f == Sp ==> Truthy(v)
    ensures !ForAppParam(f) ==> v == PyNone
  {
    var g := GivenOr(given, f, PyNone);
    match f
    case Sender => if Truthy(g) then g else PyStr(Models.ZERO_ADDRESS)
    case Sp => if Truthy(g) then g else DryRun.DEFAULT_SP
    case Index => if g.PyNone? then PyInt(if isAppCreate then CREATION_APP_CALL else EXISTING_APP_CALL) else g
    case DryrunAccounts => GivenOr(given, DryrunAccounts, PyList([]))
    case _ => if ForAppParam(f) then g else PyNone
  }

  /** Transaction parameters for a dry run, updated field by field. */
  class DryRunTransactionParams {
    var sender: PyValue
    var sp: PyValue
    var note: PyValue
    var lease: PyValue
    var rekeyTo: PyValue
    var receiver: PyValue
    var amt: PyValue
    var closeRemainderTo: PyValue
    var index: PyValue
    var onComplete: PyValue
    var localSchema: PyValue
    var globalSchema: PyValue
    var approvalProgram: PyValue
    var clearProgram: PyValue
    var appArgs: PyValue
    var accounts: PyValue
    var foreignApps: PyValue
    var foreignAssets: PyValue
    var extraPages: PyValue
    var dryrunAccounts: PyValue
    var boxRefs: PyValue

    function Get(f: TxnParam): PyValue
      reads this
    {
      match f
      case Sender => sender
      case Sp => sp
      case Note => note
      case Lease => lease
      case RekeyTo => rekeyTo
      case Receiver => receiver
      case Amt => amt
      case CloseRemainderTo => closeRemainderTo
      case Index => index
      case OnComplete => onComplete
      case LocalSchema => localSchema
      case GlobalSchema => globalSchema
      case ApprovalProgram => approvalProgram
      case ClearProgram => clearProgram
      case AppArgs => appArgs
      case Accounts => accounts
      case ForeignApps => foreignApps
      case ForeignAssets => foreignAssets
      case ExtraPages => extraPages
      case DryrunAccounts => dryrunAccounts
      case BoxRefs => boxRefs
    }

    /** `DryRunTransactionParams()`: every field at its default. */
    constructor()
      ensures forall f :: Get(f) == ParamDefault(f)
    {
      sender, sp, note, lease, rekeyTo := PyNone, PyNone, PyNone, PyNone, PyNone;
      receiver, amt, closeRemainderTo := PyNone, PyNone, PyNone;
      index, onComplete, localSchema, globalSchema := PyNone, PyNone, PyNone, PyNone;
      approvalProgram, clearProgram, appArgs, accounts := PyNone, PyNone, PyNone, PyNone;
      foreignApps, foreignAssets, extraPages := PyNone, PyNone, PyNone;
      dryrunAccounts, boxRefs := PyList([]), PyNone;
    }

    /** `setattr(self, ParamName(f), v)` */
    method Set(f: TxnParam, v: PyValue)
      modifies this
      ensures Get(f) == v
      ensures forall g :: g != f ==> Get(g) == old(Get(g))
    {
      match f
      case Sender => sender := v;
      case Sp => sp := v;
      case Note => note := v;
      case Lease => lease := v;
      case RekeyTo => rekeyTo := v;
      case Receiver => receiver := v;
      case Amt => amt := v;
      case CloseRemainderTo => closeRemainderTo := v;
      case Index => index := v;
      case OnComplete => onComplete := v;
      case LocalSchema => localSchema := v;
      case GlobalSchema => globalSchema := v;
      case ApprovalProgram => approvalProgram := v;
      case ClearProgram => clearProgram := v;
      case AppArgs => appArgs := v;
      case Accounts => accounts := v;
      case ForeignApps => foreignApps := v;
      case ForeignAssets => foreignAssets := v;
      case ExtraPages => extraPages := v;
      case DryrunAccounts => dryrunAccounts := v;
      case BoxRefs => boxRefs := v;
    }

    /** `for_app(is_app_create, ...)`: sender, sp and index defaulted; the payment fields stay None. */
    static method ForApp(isAppCreate: bool, given: map<TxnParam, PyValue>) returns (p: DryRunTransactionParams)
      requires forall f :: f in given ==> ForAppParam(f)
      ensures fresh(p)
      ensures forall f :: p.Get(f) == ForAppValue(isAppCreate, given, f)
    {
      p := new DryRunTransactionParams();
      var i := 0;
      while i < |ALL_PARAMS|
        invariant 0 <= i <= |ALL_PARAMS|
        invariant forall f :: ParamIndex(f) < i ==> p.Get(f) == ForAppValue(isAppCreate, given, f)
        invariant forall f :: ParamIndex(f) >= i ==> p.Get(f) == ParamDefault(f)
        modifies p
      {
        var f := ALL_PARAMS[i];
        ParamIndexOfListed(i);
        p.Set(f, ForAppValue(isAppCreate, given, f));
        i := i + 1;
      }
    }

    /** `asdict(drop_nones)`: every field by name except `dryrun_accounts` and `box_refs`, and without Nones if asked. */
    function AsDict(dropNones: bool): (d: map<string, PyValue>)
      reads this
      ensures forall f :: ParamName(f) in d <==> f != DryrunAccounts && f != BoxRefs && !(dropNones && Get(f).PyNone?)
      ensures forall f :: ParamName(f) in d ==> d[ParamName(f)] == Get(f)
      ensures forall k :: k in d ==> exists f :: ParamName(f) == k
    {
      ParamNamesInjective();
      AllParamsListed();
      map f | f in ALL_PARAMS && f != DryrunAccounts && f != BoxRefs && !(dropNones && Get(f).PyNone?)
        :: ParamName(f) := Get(f)
    }

    /** `update_fields(other)`: every non-None field of `other` is copied; the rest keep their values. */
    method UpdateFields(other: DryRunTransactionParams)
      modifies this
      ensures forall f :: Get(f) == if old(other.Get(f)).PyNone? then old(Get(f)) else old(other.Get(f))
    {
      var snapshot := seq(|ALL_PARAMS|, i requires 0 <= i < |ALL_PARAMS| reads other => other.Get(ALL_PARAMS[i]));
      ghost var before := seq(|ALL_PARAMS|, i requires 0 <= i < |ALL_PARAMS| reads this => Get(ALL_PARAMS[i]));
      var i := 0;
      while i < |ALL_PARAMS|
        invariant 0 <= i <= |ALL_PARAMS|
        invariant forall f :: snapshot[ParamIndex(f)] == old(other.Get(f)) && before[ParamIndex(f)] == old(Get(f))
        invariant forall f :: ParamIndex(f) < i ==>
          Get(f) == if snapshot[ParamIndex(f)].PyNone? then before[ParamIndex(f)] else snapshot[ParamIndex(f)]
        invariant forall f :: ParamIndex(f) >= i ==> Get(f) == before[ParamIndex(f)]
      {
        ParamIndexOfListed(i);
        if !snapshot[i].PyNone? {
          Set(ALL_PARAMS[i], snapshot[i]);
        }
        i := i + 1;
      }
    }
  }

  // ---------------------------------------------------------------------------
  // DryRunExecutor
  // ---------------------------------------------------------------------------

  /** What `abi.Method.from_signature` yields: argument types, the return type (None for void) and the selector. */
  datatype ParsedMethod = ParsedMethod(argTypes: seq<EncodingType>, returnType: Option<EncodingType>, selector: seq<byte>)

  /** The executor's settings after `__init__`. */
  datatype Executor = Executor(
    mode: Models.ExecutionMode,
    abiMethodSignature: Option<string>,
    omitMethodSelector: bool,
    validation: bool,
    isApp: bool,
    abiArgumentTypes: Option<seq<EncodingType>>,
    abiReturnType: EncodingType,
    abiMethod: Option<ParsedMethod>,
    selector: Option<seq<byte>>)

  /** `bool(abi_method_signature)` */
  predicate HasSignature(sig: Option<string>)
  {
    sig.Some? && sig.value != ""
  }

  /**
   * `DryRunExecutor.__init__` with `_init_impl`: an app for Application mode; with a method
   * signature, its argument types, its non-void return type and its selector.
   */
  function InitImpl(mode: Models.ExecutionMode, abiMethodSignature: Option<string>, omitMethodSelector: bool,
                    validation: bool, fromSignature: string -> Result<ParsedMethod, string>)
    : (r: Result<Executor, PyError>)
    ensures r.Success? ==> (r.value.isApp <==> mode == Models.Application)
    ensures !HasSignature(abiMethodSignature) ==>
      r.Success? && r.value.abiArgumentTypes.None? && r.value.abiMethod.None? && r.value.selector.None?
      && r.value.abiReturnType == Inspector.NoEncoding
    ensures HasSignature(abiMethodSignature) ==>
      var parsed := fromSignature(abiMethodSignature.value);
      (r.Success? <==> parsed.Success?)
      && (r.Success? ==>
            r.value.abiArgumentTypes == Some(parsed.value.argTypes)
            && r.value.selector == Some(parsed.value.selector) && r.value.abiMethod == Some(parsed.value)
            && r.value.abiReturnType == (if parsed.value.returnType.Some? then parsed.value.returnType.value else Inspector.NoEncoding))
    ensures r.Success? ==>
      r.value.omitMethodSelector == omitMethodSelector && r.value.validation == validation
      && r.value.abiMethodSignature == abiMethodSignature && r.value.mode == mode
  {
    var isApp := mode == Models.Application;
    if !HasSignature(abiMethodSignature) then
      Success(Executor(mode, abiMethodSignature, omitMethodSelector, validation, isApp, None, Inspector.NoEncoding, None, None))
    else
      var parsed := fromSignature(abiMethodSignature.value);
      if parsed.Failure? then Failure(Exception(parsed.error))
      else
        var m := parsed.value;
        var returnType := if m.returnType.Some? then m.returnType.value else Inspector.NoEncoding;
        Success(Executor(mode, abiMethodSignature, omitMethodSelector, validation, isApp,
                         Some(m.argTypes), returnType, Some(m), Some(m.selector)))
  }

  /**
   * What `_abi_adapter` returns. With validation the arguments either omit the selector or
   * start with it; the selector is then added or dropped as `omit_method_selector` says, with
   * a None type in front of the argument types whenever it stays.
   */
  function AbiAdapterSpec(e: Executor, args: seq<PyValue>): (r: Result<(seq<PyValue>, Option<seq<EncodingType>>), PyError>)
    ensures e.validation && (e.abiArgumentTypes.None? || e.abiMethod.None? || e.selector.None?) ==> r.Failure?
    ensures e.validation && r.Success? ==>
      var types := e.abiArgumentTypes.value;
      var sel := PyBytes(e.selector.value);
      (|args| == |types| || (|args| == |types| + 1 && args[0] == sel))
      && r.value.1.Some? && |r.value.0| == |r.value.1.value|
      && (e.omitMethodSelector ==> r.value.1.value == types && r.value.0 == (if |args| == |types| then args else args[1..]))
      && (!e.omitMethodSelector ==>
            r.value.1.value == [Inspector.NoEncoding] + types
            && r.value.0 == (if |args| == |types| then [sel] + args else args))
    ensures e.validation && e.abiArgumentTypes.Some? && e.abiMethod.Some? && e.selector.Some?
            && !(|args| == |e.abiArgumentTypes.value| || |args| == |e.abiArgumentTypes.value| + 1) ==>
      r.Failure? && r.error.AssertionError?
    ensures !e.validation && !e.omitMethodSelector ==>
      (r.Success? <==> e.abiArgumentTypes.Some?)
      && (r.Success? ==> r.value == (args, Some([Inspector.NoEncoding] + e.abiArgumentTypes.value)))
    ensures !e.validation && e.omitMethodSelector ==> r == Success((args, e.abiArgumentTypes))
  {
    if e.validation then
      if e.abiArgumentTypes.None? || e.abiMethod.None? || e.selector.None? then Failure(AssertionError(UNEXPECTED_NONE))
      else
        var types := e.abiArgumentTypes.value;
        var sel := PyBytes(e.selector.value);
        if |args| == |types| then
          if e.omitMethodSelector then Success((args, Some(types)))
          else Success(([sel] + args, Some([Inspector.NoEncoding] + types)))
        else if |args| == |types| + 1 then
          if args[0] != sel then Failure(AssertionError(SELECTOR_NOT_FIRST))
          else if e.omitMethodSelector then Success((args[1..], Some(types)))
          else Success((args, Some([Inspector.NoEncoding] + types)))
        else Failure(AssertionError(ARGS_OUT_LENGTH_MISMATCH))
    else if !e.omitMethodSelector then
      if e.abiArgumentTypes.None? then Failure(AssertionError(UNEXPECTED_NONE))
      else Success((args, Some([Inspector.NoEncoding] + e.abiArgumentTypes.value)))
    else Success((args, e.abiArgumentTypes))
  }

  /** `_abi_adapter(args)`, reassigning its working copies of the arguments and the types. */
  method AbiAdapter(e: Executor, args: seq<PyValue>) returns (r: Result<(seq<PyValue>, Option<seq<EncodingType>>), PyError>)
    ensures r == AbiAdapterSpec(e, args)
  {
    var argsOut := args;
    var aatsOut := e.abiArgumentTypes;
    if e.validation {
      if aatsOut.None? || e.abiMethod.None? || e.selector.None? {
        return Failure(AssertionError(UNEXPECTED_NONE));
      }
      var selector := PyBytes(e.selector.value);
      if |argsOut| == |aatsOut.value| {
        if !e.omitMethodSelector {
          aatsOut := Some([Inspector.NoEncoding] + aatsOut.value);
          argsOut := [selector] + argsOut;
        }
      } else if |argsOut| == |aatsOut.value| + 1 {
        if argsOut[0] != selector {
          return Failure(AssertionError(SELECTOR_NOT_FIRST));
        }
        if e.omitMethodSelector {
          argsOut := argsOut[1..];
        } else {
          aatsOut := Some([Inspector.NoEncoding] + aatsOut.value);
        }
      } else {
        return Failure(AssertionError(ARGS_OUT_LENGTH_MISMATCH));
      }
    } else if !e.omitMethodSelector {
      if aatsOut.None? {
        return Failure(AssertionError(UNEXPECTED_NONE));
      }
      aatsOut := Some([Inspector.NoEncoding] + aatsOut.value);
    }
    return Success((argsOut, aatsOut));
  }

  /** `_executor_prep(args)`: adapt the arguments when there is a method signature, then encode them. */
  function ExecutorPrep(e: Executor, args: seq<PyValue>, encoder: (EncodingType, PyValue) -> Result<seq<byte>, string>)
    : (r: Result<(seq<PyValue>, seq<PyValue>), PyError>)
    ensures !HasSignature(e.abiMethodSignature) ==>
      (r.Success? <==> EncodeArgs(args, e.abiArgumentTypes, e.validation, encoder).Success?)
    ensures HasSignature(e.abiMethodSignature) && AbiAdapterSpec(e, args).Failure? ==> r.Failure?
    ensures r.Success? && HasSignature(e.abiMethodSignature) ==>
      AbiAdapterSpec(e, args).Success? && r.value.0 == AbiAdapterSpec(e, args).value.0
      && Success(r.value.1) == EncodeArgs(r.value.0, AbiAdapterSpec(e, args).value.1, e.validation, encoder)
    ensures r.Success? && !HasSignature(e.abiMethodSignature) ==>
      r.value.0 == args && Success(r.value.1) == EncodeArgs(args, e.abiArgumentTypes, e.validation, encoder)
  {
    if HasSignature(e.abiMethodSignature) then
      var adapted :- AbiAdapterSpec(e, args);
      var encoded :- EncodeArgs(adapted.0, adapted.1, e.validation, encoder);
      Success((adapted.0, encoded))
    else
      var encoded :- EncodeArgs(args, e.abiArgumentTypes, e.validation, encoder);
      Success((args, encoded))
  }

  /**
   * With validation and the selector kept, the selector reaches the encoded arguments unchanged
   * in front, and the count check of `encode_args` always passes.
   */
  lemma SelectorSurvivesEncoding(e: Executor, args: seq<PyValue>, encoder: (EncodingType, PyValue) -> Result<seq<byte>, string>)
    requires HasSignature(e.abiMethodSignature) && e.validation && !e.omitMethodSelector
    requires ExecutorPrep(e, args, encoder).Success?
    ensures var (argsOut, encoded) := ExecutorPrep(e, args, encoder).value;
      argsOut != [] && argsOut[0] == PyBytes(e.selector.value) && encoded != [] && encoded[0] == PyBytes(e.selector.value)
  {
    var adapted := AbiAdapterSpec(e, args).value;
    var types := adapted.1;
    assert ArgTypeAt(types, 0) == Inspector.NoEncoding;
    var encoded := EncodeArgs(adapted.0, types, e.validation, encoder).value;
    assert Success(encoded[0]) == EncodeArg(adapted.0[0], 0, Inspector.NoEncoding, encoder);
  }

  /** The adapted arguments and types always have equal length under validation, so `encode_args` validates. */
  lemma AdapterMatchesCounts(e: Executor, args: seq<PyValue>)
    requires e.validation && AbiAdapterSpec(e, args).Success?
    ensures var (a, t) := AbiAdapterSpec(e, args).value; t.Some? && |a| == |t.value|
  {
  }

  /** The `inputs` of `_run`: one args tuple, a list or `map` of them (already listed), or anything else. */
  datatype RunInputs = OneArgs(args: seq<PyValue>) | ManyArgs(items: seq<PyValue>) | OtherInputs(typeName: string)

  /** The dry runs `_run` performs: one for a tuple, else one per tuple of a non-empty list. */
  datatype RunPlan = SingleRun(args: seq<PyValue>) | SequenceRun(runs: seq<seq<PyValue>>)

  /** `_run`'s checks on `inputs` */
  function RunShape(inputs: RunInputs): (r: Result<RunPlan, PyError>)
    ensures inputs.OneArgs? ==> r == Success(SingleRun(inputs.args))
    ensures inputs.OtherInputs? ==> r.Failure?
    ensures inputs.ManyArgs? ==>
      (r.Success? <==> inputs.items != [] && forall i :: 0 <= i < |inputs.items| ==> inputs.items[i].PyTuple?)
      && (r.Success? ==>
            r.value.SequenceRun? && |r.value.runs| == |inputs.items|
            && forall i :: 0 <= i < |inputs.items| ==> PyTuple(r.value.runs[i]) == inputs.items[i])
    ensures r.Failure? ==> r.error.AssertionError?
  {
    match inputs
    case OneArgs(args) => Success(SingleRun(args))
    case OtherInputs(_) => Failure(AssertionError(BAD_INPUTS_TYPE))
    case ManyArgs(items) =>
      if items == [] then Failure(AssertionError(NO_INPUT_ARGS))
      else if exists i :: 0 <= i < |items| && !items[i].PyTuple? then
        Failure(AssertionError(ARGS_MUST_BE_TUPLES))
      else Success(SequenceRun(seq(|items|, i requires 0 <= i < |items| => items[i].items)))
  }
}

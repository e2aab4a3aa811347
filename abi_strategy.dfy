/**
 * Random generation and deterministic mutation of values of ARC-4 (Algorand ABI) types
 * (graviton/abi_strategy.py). The random draws are an explicit oracle: draw number `pos`
 * of a range of size k is `o(pos) % k`, and every generator threads the position of the
 * next unused draw.
 */
module AbiStrategy {
  import opened Wrappers
  import opened PyModel

  // Messages of the exceptions raised here, as Python spells them.
  const NO_RANDOM_SAMPLE: string := "Currently cannot get a random sample for "
  const CANNOT_HANDLE_TYPE: string := "Currently cannot handle type "
  const UNEXPECTED_ABI_TYPE: string := "Unexpected abi_type "
  const REVERSED_NEEDS_SEQUENCE: string := "argument to reversed() must be a sequence"
  const CANNOT_DECODE_ADDRESS: string := "cannot decode address"
  const NOT_ITERABLE: string := "object is not iterable"
  const NOT_SUBSCRIPTABLE: string := "object is not subscriptable"
  const JOIN_EXPECTS_STR: string := "sequence item: expected str instance"
  const BAD_OPERAND_FOR_MINUS: string := "unsupported operand type(s) for -"
  const NO_BIT_SIZE: string := "no attribute bit_size"
  const NO_CHILD_TYPES: string := "no attribute child_types"
  const NO_CHILD_TYPE: string := "no attribute child_type"

  /** The ABI types of algosdk, plus any other ABIType subclass a caller might supply. */
  datatype AbiType =
    | UfixedType(bitSize: nat, precision: nat)
    | BoolType
    | UintType(bitSize: nat)
    | ByteType
    | TupleType(childTypes: seq<AbiType>)
    | ArrayStaticType(childType: AbiType, staticLength: nat)
    | AddressType
    | ArrayDynamicType(childType: AbiType)
    | StringType
    | OtherAbiType(name: string)

  type Oracle = nat -> nat

  const DEFAULT_DYNAMIC_ARRAY_LENGTH: nat := 3
  const ADDRESS_BYTE_LEN: nat := 32
  /** string.digits + string.ascii_letters + string.punctuation */
  const STRING_CHARS: string :=
    "0123456789abcdefghijklmnopqrstuvwxyzABCDEFGHIJKLMNOPQRSTUVWXYZ!\"#$%&'()*+,-./:;<=>?@[\\]^_`{|}~"

  /** A termination measure: children are smaller, and byte/address defer to smaller types. */
  function Size(t: AbiType): nat
  {
    match t
    case TupleType(cs) => 1 + SizeList(cs)
    case ArrayStaticType(c, _) => 2 + Size(c)
    case ArrayDynamicType(c) => 2 + Size(c)
    case ByteType => 2
    case AddressType => 4
    case _ => 1
  }

  function SizeList(ts: seq<AbiType>): nat
  {
    if ts == [] then 0 else Size(ts[0]) + 1 + SizeList(ts[1..])
  }

  /** `str(abi_type)`, the ARC-4 type string. */
  function TypeName(t: AbiType): string
    decreases Size(t), 1
  {
    match t
    case UfixedType(n, m) => "ufixed" + NatToString(n) + "x" + NatToString(m)
    case BoolType => "bool"
    case UintType(n) => "uint" + NatToString(n)
    case ByteType => "byte"
    case TupleType(cs) => "(" + JoinTypeNames(cs) + ")"
    case ArrayStaticType(c, n) => TypeName(c) + "[" + NatToString(n) + "]"
    case AddressType => "address"
    case ArrayDynamicType(c) => TypeName(c) + "[]"
    case StringType => "string"
    case OtherAbiType(name) => name
  }

  function JoinTypeNames(ts: seq<AbiType>): string
    decreases SizeList(ts), 0
  {
    if ts == [] then ""
    else if |ts| == 1 then TypeName(ts[0])
    else TypeName(ts[0]) + "," + JoinTypeNames(ts[1..])
  }

  // ---------------------------------------------------------------------------
  // Generation
  // ---------------------------------------------------------------------------

  /** The range a dynamic array or string is generated over: `dynamic_length`, else 3. */
  function Count(dynLen: Option<int>): nat
  {
    match dynLen
    case None => DEFAULT_DYNAMIC_ARRAY_LENGTH
    case Some(n) => if n < 0 then 0 else n
  }

  function Draw(o: Oracle, pos: nat, k: nat): (d: nat)
    requires k > 0
    ensures d < k
  {
    o(pos) % k
  }

  /** The types `get` can produce a value for: no ufixed or foreign type is ever reached. */
  predicate Generable(t: AbiType, dynLen: Option<int>)
  {
    match t
    case UfixedType(_, _) => false
    case OtherAbiType(_) => false
    case TupleType(cs) => forall i :: 0 <= i < |cs| ==> Generable(cs[i], None)
    case ArrayStaticType(c, n) => n == 0 || Generable(c, None)
    case ArrayDynamicType(c) => Count(dynLen) == 0 || Generable(c, None)
    case _ => true
  }

  /**
   * The shape of a generated value: uints in [0, 2^N), one value per tuple child,
   * `static_length` elements, dynamic arrays and strings of the requested length
   * (children always get the default length), characters from STRING_CHARS.
   */
  predicate Generated(v: PyValue, t: AbiType, dynLen: Option<int>)
  {
    match t
    case UfixedType(_, _) => false
    case BoolType => v.PyBool?
    case UintType(n) => v.PyInt? && 0 <= v.i < Pow2(n)
    case ByteType => v.PyInt? && 0 <= v.i < 256
    case TupleType(cs) =>
      v.PyList? && |v.items| == |cs| && forall i :: 0 <= i < |cs| ==> Generated(v.items[i], cs[i], None)
    case ArrayStaticType(c, n) =>
      v.PyList? && |v.items| == n && forall i :: 0 <= i < n ==> Generated(v.items[i], c, None)
    case AddressType => v.PyAddress? && |v.raw| == ADDRESS_BYTE_LEN
    case ArrayDynamicType(c) =>
      v.PyList? && |v.items| == Count(dynLen) && forall i :: 0 <= i < |v.items| ==> Generated(v.items[i], c, None)
    case StringType => v.PyStr? && |v.s| == Count(dynLen) && forall i :: 0 <= i < |v.s| ==> v.s[i] in STRING_CHARS
    case OtherAbiType(_) => false
  }

  /** Type conformance of a value independent of how it was produced. */
  predicate Conforms(v: PyValue, t: AbiType)
  {
    match t
    case UfixedType(_, _) => false
    case BoolType => v.PyBool?
    case UintType(n) => v.PyInt? && 0 <= v.i < Pow2(n)
    case ByteType => v.PyInt? && 0 <= v.i < 256
    case TupleType(cs) =>
      v.PyList? && |v.items| == |cs| && forall i :: 0 <= i < |cs| ==> Conforms(v.items[i], cs[i])
    case ArrayStaticType(c, n) =>
      v.PyList? && |v.items| == n && forall i :: 0 <= i < n ==> Conforms(v.items[i], c)
    case AddressType => v.PyAddress? && |v.raw| == ADDRESS_BYTE_LEN
    case ArrayDynamicType(c) => v.PyList? && forall i :: 0 <= i < |v.items| ==> Conforms(v.items[i], c)
    case StringType => v.PyStr?
    case OtherAbiType(_) => false
  }

  lemma {:induction false} GeneratedConforms(v: PyValue, t: AbiType, dynLen: Option<int>)
    requires Generated(v, t, dynLen)
    ensures Conforms(v, t)
    decreases t
  {
    match t
    case TupleType(cs) =>
      forall i | 0 <= i < |cs| ensures Conforms(v.items[i], cs[i]) {
        GeneratedConforms(v.items[i], cs[i], None);
      }
    case ArrayStaticType(c, n) =>
      forall i | 0 <= i < n ensures Conforms(v.items[i], c) {
        GeneratedConforms(v.items[i], c, None);
      }
    case ArrayDynamicType(c) =>
      forall i | 0 <= i < |v.items| ensures Conforms(v.items[i], c) {
        GeneratedConforms(v.items[i], c, None);
      }
    case _ =>
  }

  function ToBytes(vs: seq<PyValue>): (bs: seq<byte>)
    requires forall i :: 0 <= i < |vs| ==> vs[i].PyInt? && 0 <= vs[i].i < 256
    ensures |bs| == |vs|
  {
    seq(|vs|, i requires 0 <= i < |vs| => vs[i].i as byte)
  }

  /**
   * `RandomABIStrategy(t, dynamic_length).get()`, starting at draw `pos`; the second
   * component of the result is the position of the next unused draw.
   */
  function Gen(t: AbiType, dynLen: Option<int>, o: Oracle, pos: nat): (r: Result<(PyValue, nat), PyError>)
    ensures r.Success? <==> Generable(t, dynLen)
    ensures r.Success? ==> Generated(r.value.0, t, dynLen) && r.value.1 >= pos
    decreases Size(t), 0
  {
    match t
    case UfixedType(_, _) =>
      Result<(PyValue, nat), PyError>.Failure(NotImplementedError(NO_RANDOM_SAMPLE + TypeName(t)))
    case BoolType =>
      // random.choice([True, False])
      Success((PyBool(Draw(o, pos, 2) == 0), pos + 1))
    case UintType(n) =>
      // random.randint(0, (1 << n) - 1)
      Success((PyInt(Draw(o, pos, Pow2(n))), pos + 1))
    case ByteType =>
      Gen(UintType(8), None, o, pos)
    case TupleType(cs) =>
      var (vs, next) :- GenList(cs, o, pos);
      Success((PyList(vs), next))
    case ArrayStaticType(c, n) =>
      var (vs, next) :- GenRepeat(c, n, o, pos);
      Success((PyList(vs), next))
    case AddressType =>
      var raw := GenRepeat(ByteType, ADDRESS_BYTE_LEN, o, pos);
      assert raw.Success?;
      Success((PyAddress(ToBytes(raw.value.0)), raw.value.1))
    case ArrayDynamicType(c) =>
      var (vs, next) :- GenRepeat(c, Count(dynLen), o, pos);
      Success((PyList(vs), next))
    case StringType =>
      var s := GenChars(Count(dynLen), o, pos);
      Success((PyStr(s), pos + Count(dynLen)))
    case OtherAbiType(_) =>
      Failure(ValueError(UNEXPECTED_ABI_TYPE + TypeName(t)))
  }

  /** One value per child type, in order (children get no dynamic length). */
  function GenList(cs: seq<AbiType>, o: Oracle, pos: nat): (r: Result<(seq<PyValue>, nat), PyError>)
    ensures r.Success? <==> forall i :: 0 <= i < |cs| ==> Generable(cs[i], None)
    ensures r.Success? ==> |r.value.0| == |cs| && r.value.1 >= pos
    ensures r.Success? ==> forall i :: 0 <= i < |cs| ==> Generated(r.value.0[i], cs[i], None)
    decreases SizeList(cs), 0
  {
    if cs == [] then Success(([], pos))
    else
      var head := Gen(cs[0], None, o, pos);
      if head.Failure? then Failure(head.error)
      else
        var tail := GenList(cs[1..], o, head.value.1);
        assert forall i :: 1 <= i < |cs| ==> cs[i] == cs[1..][i - 1];
        if tail.Failure? then Failure(tail.error)
        else Success(([head.value.0] + tail.value.0, tail.value.1))
  }

  /** `n` independent values of the child type. */
  function GenRepeat(c: AbiType, n: nat, o: Oracle, pos: nat): (r: Result<(seq<PyValue>, nat), PyError>)
    ensures r.Success? <==> (n == 0 || Generable(c, None))
    ensures r.Success? ==> |r.value.0| == n && r.value.1 >= pos
    ensures r.Success? ==> forall i :: 0 <= i < n ==> Generated(r.value.0[i], c, None)
    decreases Size(c) + 1, n
  {
    if n == 0 then Success(([], pos))
    else
      var head := Gen(c, None, o, pos);
      if head.Failure? then Failure(head.error)
      else
        var tail := GenRepeat(c, n - 1, o, head.value.1);
        if tail.Failure? then tail
        else Success(([head.value.0] + tail.value.0, tail.value.1))
  }

  /** `"".join(random.choice(STRING_CHARS) for _ in range(n))` */
  function GenChars(n: nat, o: Oracle, pos: nat): (s: string)
    ensures |s| == n
    ensures forall i :: 0 <= i < |s| ==> s[i] in STRING_CHARS
  {
    if n == 0 then "" else [STRING_CHARS[Draw(o, pos, |STRING_CHARS|)]] + GenChars(n - 1, o, pos + 1)
  }

  /** Which generator class an executor was given. */
  datatype StrategyKind = Random | RandomHalfSized

  /** A strategy instance: its class, the type it draws and the dynamic length it was given. */
  datatype Strategy = Strategy(kind: StrategyKind, abiType: AbiType, dynamicLength: Option<int>)

  /**
   * `RandomABIStrategyHalfSized(t, dynamic_length).get()`: the base value, reduced
   * modulo 2^(N div 2) when `t` itself is `uint<N>`. Children of composites are still
   * drawn by the base generator.
   */
  function HalfSizedGen(t: AbiType, dynLen: Option<int>, o: Oracle, pos: nat): (r: Result<(PyValue, nat), PyError>)
    ensures r.Success? <==> Gen(t, dynLen, o, pos).Success?
    ensures !t.UintType? ==> r == Gen(t, dynLen, o, pos)
    ensures t.UintType? && r.Success? ==>
      r.value.0.PyInt? && 0 <= r.value.0.i < Pow2(t.bitSize / 2)
      && r.value.0.i == Gen(t, dynLen, o, pos).value.0.i % Pow2(t.bitSize / 2)
      && r.value.1 == Gen(t, dynLen, o, pos).value.1
  {
    var (v, next) :- Gen(t, dynLen, o, pos);
    if t.UintType? then Success((PyInt(v.i % Pow2(t.bitSize / 2)), next))
    else Success((v, next))
  }

  /** `strategy.get()` for either generator class. */
  function Get(st: Strategy, o: Oracle, pos: nat): (r: Result<(PyValue, nat), PyError>)
    ensures r.Success? <==> Generable(st.abiType, st.dynamicLength)
    ensures r.Success? ==> r.value.1 >= pos
    ensures r.Success? ==> Conforms(r.value.0, st.abiType)
  {
    match st.kind
    case Random =>
      var r := Gen(st.abiType, st.dynamicLength, o, pos);
      if r.Success? then GeneratedConforms(r.value.0, st.abiType, st.dynamicLength); r
      else r
    case RandomHalfSized =>
      var r := HalfSizedGen(st.abiType, st.dynamicLength, o, pos);
      if r.Success? then
        var g := Gen(st.abiType, st.dynamicLength, o, pos);
        GeneratedConforms(g.value.0, st.abiType, st.dynamicLength);
        if st.abiType.UintType? then HalvedConforms(st.abiType, g.value.0); r else r
      else r
  }

  lemma HalvedConforms(t: AbiType, v: PyValue)
    requires t.UintType? && Conforms(v, t)
    ensures Conforms(PyInt(v.i % Pow2(t.bitSize / 2)), t)
  {
    Pow2Monotone(t.bitSize / 2, t.bitSize);
  }

  lemma {:induction false} Pow2Monotone(m: nat, n: nat)
    requires m <= n
    ensures Pow2(m) <= Pow2(n)
    decreases n
  {
    if m < n { Pow2Monotone(m, n - 1); }
  }

  /** `strategy.get_many(n)`: n successive draws. */
  function GetMany(st: Strategy, n: nat, o: Oracle, pos: nat): (r: Result<(seq<PyValue>, nat), PyError>)
    ensures r.Success? <==> (n == 0 || Generable(st.abiType, st.dynamicLength))
    ensures r.Success? ==> |r.value.0| == n && r.value.1 >= pos
    ensures r.Success? ==> forall i :: 0 <= i < n ==> Conforms(r.value.0[i], st.abiType)
  {
    if n == 0 then Success(([], pos))
    else
      var head := Get(st, o, pos);
      if head.Failure? then Failure(head.error)
      else
        var tail := GetMany(st, n - 1, o, head.value.1);
        if tail.Failure? then tail
        else Success(([head.value.0] + tail.value.0, tail.value.1))
  }

  /**
   * The class attributes behind `seed_randomness`: the first call seeds the shared
   * random source, later calls leave the seed alone.
   */
  class RandomSeeding {
    var seeded: bool
    var randomSeed: int

    constructor()
      ensures !seeded
    {
      seeded := false;
      randomSeed := 0;
    }

    /** `reseeded` says whether `random.seed` was called. */
    method SeedRandomness(seed: int) returns (reseeded: bool)
      modifies this
      ensures seeded
      ensures reseeded <==> !old(seeded)
      ensures randomSeed == if old(seeded) then old(randomSeed) else seed
    {
      if seeded {
        return false;
      }
      randomSeed := seed;
      seeded := true;
      return true;
    }
  }

  // ---------------------------------------------------------------------------
  // Mutation
  // ---------------------------------------------------------------------------

  /** The elements Python sees when it iterates or indexes list, tuple, str or bytes. */
  function Elements(v: PyValue): Option<seq<PyValue>>
  {
    match v
    case PyList(xs) => Some(xs)
    case PyTuple(xs) => Some(xs)
    case PyStr(s) => Some(seq(|s|, i requires 0 <= i < |s| => PyStr([s[i]])))
    case PyBytes(bs) => Some(seq(|bs|, i requires 0 <= i < |bs| => PyInt(bs[i] as int)))
    case _ => None
  }

  function Reverse<T>(s: seq<T>): (r: seq<T>)
    ensures |r| == |s|
    ensures forall i :: 0 <= i < |s| ==> r[i] == s[|s| - 1 - i]
  {
    if s == [] then [] else Reverse(s[1..]) + [s[0]]
  }

  lemma ReverseReverse<T>(s: seq<T>)
    ensures Reverse(Reverse(s)) == s
  {
    var r := Reverse(Reverse(s));
    assert |r| == |s|;
    forall i | 0 <= i < |s| ensures r[i] == s[i] {
      assert r[i] == Reverse(s)[|s| - 1 - i];
    }
  }

  /** `"".join(xs)` over a sequence of Python strings. */
  function JoinStrs(xs: seq<PyValue>): Option<string>
  {
    if xs == [] then Some("")
    else if !xs[0].PyStr? then None
    else
      match JoinStrs(xs[1..])
      case None => None
      case Some(rest) => Some(xs[0].s + rest)
  }

  function FlipBytes(raw: seq<byte>): (r: seq<byte>)
    ensures |r| == |raw|
  {
    seq(|raw|, i requires 0 <= i < |raw| => (255 - raw[i] as int) as byte)
  }

  /**
   * How `map` treats a type that is none of algosdk's own classes. `AsWritten`: `isinstance`
   * is handed the string "DEFAULT" and raises a TypeError. `Corrected`: the "DEFAULT"
   * handler `unexpected_type` raises its ValueError.
   */
  datatype Dispatch = AsWritten | Corrected

  /** No part of the type is a foreign ABIType subclass. */
  predicate NoForeign(t: AbiType)
  {
    match t
    case OtherAbiType(_) => false
    case TupleType(cs) => forall i :: 0 <= i < |cs| ==> NoForeign(cs[i])
    case ArrayStaticType(c, _) => NoForeign(c)
    case ArrayDynamicType(c) => NoForeign(c)
    case _ => true
  }

  /**
   * `RandomABIStrategy(t).mutate_for_roundtrip(v)`, dispatched on the closed type variant;
   * the children of tuples and arrays go through the same dispatch `d` (the waterfall below
   * states the same dispatch as the source's table).
   */
  function Mutate(d: Dispatch, t: AbiType, v: PyValue): Result<PyValue, PyError>
    decreases Size(t), 1
  {
    match t
    case UfixedType(_, _) => Failure(NotImplementedError(CANNOT_HANDLE_TYPE + TypeName(t)))
    case BoolType => Success(PyBool(!Truthy(v)))
    case UintType(n) => MutateUint(n, v)
    case ByteType => Mutate(d, UintType(8), v)
    case TupleType(cs) => MutateTuple(d, cs, v)
    case ArrayStaticType(c, _) => MutateArray(d, c, v)
    case AddressType => MutateAddress(v)
    case ArrayDynamicType(c) => MutateArray(d, c, v)
    case StringType => MutateString(v)
    case OtherAbiType(_) =>
      if d == AsWritten then Failure(TypeError(ISINSTANCE_ARG_ERROR))
      else Failure(ValueError(UNEXPECTED_ABI_TYPE + TypeName(t)))
  }

  /** `(1 << n) - 1 - x`; a bool is an int in Python. */
  function MutateUint(n: nat, v: PyValue): Result<PyValue, PyError>
  {
    match v
    case PyInt(x) => Success(PyInt(Pow2(n) - 1 - x))
    case PyBool(b) => Success(PyInt(Pow2(n) - 1 - (if b then 1 else 0)))
    case _ => Failure(TypeError(BAD_OPERAND_FOR_MINUS))
  }

  /** decode the address, flip each byte as a `byte` (x -> 255 - x), encode again */
  function MutateAddress(v: PyValue): Result<PyValue, PyError>
  {
    match v
    case PyAddress(raw) => Success(PyAddress(FlipBytes(raw)))
    case _ => Failure(ValueError(CANNOT_DECODE_ADDRESS))
  }

  /** `"".join(reversed(x))` */
  function MutateString(v: PyValue): Result<PyValue, PyError>
  {
    match v
    case PyStr(s) => Success(PyStr(Reverse(s)))
    case PyList(xs) =>
      (match JoinStrs(Reverse(xs))
       case Some(s) => Success(PyStr(s))
       case None => Failure(TypeError(JOIN_EXPECTS_STR)))
    case PyTuple(xs) =>
      (match JoinStrs(Reverse(xs))
       case Some(s) => Success(PyStr(s))
       case None => Failure(TypeError(JOIN_EXPECTS_STR)))
    case _ => Failure(TypeError(REVERSED_NEEDS_SEQUENCE))
  }

  function MutateArray(d: Dispatch, c: AbiType, v: PyValue): Result<PyValue, PyError>
    decreases Size(c) + 2, 0
  {
    match Elements(v)
    case None => Failure(TypeError(NOT_ITERABLE))
    case Some(xs) =>
      var ys :- MutateEach(d, c, xs);
      Success(PyList(ys))
  }

  /** `[mutate(child_i, x[i]) for i, child_i in enumerate(children)]`, left to right. */
  function MutateZip(d: Dispatch, cs: seq<AbiType>, xs: seq<PyValue>): Result<seq<PyValue>, PyError>
    decreases SizeList(cs), 0
  {
    if cs == [] then Success([])
    else if xs == [] then Failure(IndexError(LIST_INDEX_OUT_OF_RANGE))
    else
      var y :- Mutate(d, cs[0], xs[0]);
      var ys :- MutateZip(d, cs[1..], xs[1..]);
      Success([y] + ys)
  }

  /** `[mutate(child, y) for y in x]`, left to right. */
  function MutateEach(d: Dispatch, c: AbiType, xs: seq<PyValue>): Result<seq<PyValue>, PyError>
    decreases Size(c) + 1, |xs|
  {
    if xs == [] then Success([])
    else
      var y :- Mutate(d, c, xs[0]);
      var ys :- MutateEach(d, c, xs[1..]);
      Success([y] + ys)
  }

  /** The tuple handler: index `x[i]` for each child in turn. */
  function MutateTuple(d: Dispatch, cs: seq<AbiType>, v: PyValue): Result<PyValue, PyError>
    decreases SizeList(cs), 1
  {
    match Elements(v)
    case None => Failure(TypeError(NOT_SUBSCRIPTABLE))
    case Some(xs) =>
      var ys :- MutateZip(d, cs, xs);
      Success(PyList(ys))
  }

  lemma {:induction false} FlipBytesInvolution(raw: seq<byte>)
    ensures FlipBytes(FlipBytes(raw)) == raw
  {
    var r := FlipBytes(FlipBytes(raw));
    forall i | 0 <= i < |raw| ensures r[i] == raw[i] {
      assert FlipBytes(raw)[i] as int == 255 - raw[i] as int;
    }
  }

  /**
   * Mutation preserves the type of a conforming value and undoes itself, whichever way
   * foreign types are dispatched: mutating twice gives the value back. This is what makes
   * it a round-trip probe.
   */
  lemma {:induction false} MutateInvolution(d: Dispatch, t: AbiType, v: PyValue)
    requires Conforms(v, t)
    ensures Mutate(d, t, v).Success?
    ensures Conforms(Mutate(d, t, v).value, t)
    ensures Mutate(d, t, Mutate(d, t, v).value) == Success(v)
    decreases Size(t), 1
  {
    match t
    case BoolType =>
    case UintType(n) =>
    case ByteType =>
      assert Pow2(8) == 256;
    case TupleType(cs) =>
      MutateZipInvolution(d, cs, v.items);
    case ArrayStaticType(c, _) =>
      MutateEachInvolution(d, c, v.items);
    case AddressType =>
      FlipBytesInvolution(v.raw);
    case ArrayDynamicType(c) =>
      MutateEachInvolution(d, c, v.items);
    case StringType =>
      ReverseReverse(v.s);
  }

  lemma {:induction false} MutateZipInvolution(d: Dispatch, cs: seq<AbiType>, xs: seq<PyValue>)
    requires |xs| == |cs|
    requires forall i :: 0 <= i < |cs| ==> Conforms(xs[i], cs[i])
    ensures MutateZip(d, cs, xs).Success?
    ensures |MutateZip(d, cs, xs).value| == |cs|
    ensures forall i :: 0 <= i < |cs| ==> Conforms(MutateZip(d, cs, xs).value[i], cs[i])
    ensures MutateZip(d, cs, MutateZip(d, cs, xs).value) == Success(xs)
    decreases SizeList(cs), 0
  {
    if cs != [] {
      MutateInvolution(d, cs[0], xs[0]);
      var y := Mutate(d, cs[0], xs[0]).value;
      forall i | 0 <= i < |cs| - 1 ensures Conforms(xs[1..][i], cs[1..][i]) {
        assert xs[1..][i] == xs[i + 1] && cs[1..][i] == cs[i + 1];
      }
      MutateZipInvolution(d, cs[1..], xs[1..]);
      var ys := MutateZip(d, cs[1..], xs[1..]).value;
      var zs := [y] + ys;
      assert MutateZip(d, cs, xs) == Success(zs);
      assert zs[0] == y && zs[1..] == ys;
      forall i | 0 <= i < |cs| ensures Conforms(zs[i], cs[i]) {
        if i > 0 { assert zs[i] == ys[i - 1] && cs[i] == cs[1..][i - 1]; }
      }
      assert MutateZip(d, cs, zs) == Success([xs[0]] + xs[1..]);
      assert [xs[0]] + xs[1..] == xs;
    }
  }

  lemma {:induction false} MutateEachInvolution(d: Dispatch, c: AbiType, xs: seq<PyValue>)
    requires forall i :: 0 <= i < |xs| ==> Conforms(xs[i], c)
    ensures MutateEach(d, c, xs).Success?
    ensures |MutateEach(d, c, xs).value| == |xs|
    ensures forall i :: 0 <= i < |xs| ==> Conforms(MutateEach(d, c, xs).value[i], c)
    ensures MutateEach(d, c, MutateEach(d, c, xs).value) == Success(xs)
    decreases Size(c) + 1, |xs|
  {
    if xs != [] {
      MutateInvolution(d, c, xs[0]);
      assert forall i :: 1 <= i < |xs| ==> xs[i] == xs[1..][i - 1];
      MutateEachInvolution(d, c, xs[1..]);
      var ys := MutateEach(d, c, xs).value;
      assert ys[1..] == MutateEach(d, c, xs[1..]).value;
      assert [xs[0]] + xs[1..] == xs;
    }
  }

  /** Generated values round-trip through mutation. */
  lemma GeneratedMutateRoundTrip(d: Dispatch, t: AbiType, dynLen: Option<int>, o: Oracle, pos: nat)
    requires Generable(t, dynLen)
    ensures Mutate(d, t, Gen(t, dynLen, o, pos).value.0).Success?
    ensures Mutate(d, t, Mutate(d, t, Gen(t, dynLen, o, pos).value.0).value) == Success(Gen(t, dynLen, o, pos).value.0)
  {
    GeneratedConforms(Gen(t, dynLen, o, pos).value.0, t, dynLen);
    MutateInvolution(d, t, Gen(t, dynLen, o, pos).value.0);
  }

  /** The two dispatches differ only at a foreign type: without one they mutate alike. */
  lemma {:induction false} MutateDispatchesAgree(t: AbiType, v: PyValue)
    requires NoForeign(t)
    ensures Mutate(AsWritten, t, v) == Mutate(Corrected, t, v)
    decreases Size(t), 1
  {
    match t
    case UfixedType(_, _) =>
    case BoolType =>
    case UintType(_) =>
    case ByteType =>
      MutateDispatchesAgree(UintType(8), v);
    case TupleType(cs) =>
      if Elements(v).Some? { MutateZipDispatchesAgree(cs, Elements(v).value); }
    case ArrayStaticType(c, _) =>
      if Elements(v).Some? { MutateEachDispatchesAgree(c, Elements(v).value); }
    case AddressType =>
    case ArrayDynamicType(c) =>
      if Elements(v).Some? { MutateEachDispatchesAgree(c, Elements(v).value); }
    case StringType =>
  }

  lemma {:induction false} MutateZipDispatchesAgree(cs: seq<AbiType>, xs: seq<PyValue>)
    requires forall i :: 0 <= i < |cs| ==> NoForeign(cs[i])
    ensures MutateZip(AsWritten, cs, xs) == MutateZip(Corrected, cs, xs)
    decreases SizeList(cs), 0
  {
    if cs != [] && xs != [] {
      MutateDispatchesAgree(cs[0], xs[0]);
      assert forall i :: 1 <= i < |cs| ==> cs[1..][i - 1] == cs[i];
      MutateZipDispatchesAgree(cs[1..], xs[1..]);
    }
  }

  lemma {:induction false} MutateEachDispatchesAgree(c: AbiType, xs: seq<PyValue>)
    requires NoForeign(c)
    ensures MutateEach(AsWritten, c, xs) == MutateEach(Corrected, c, xs)
    decreases Size(c) + 1, |xs|
  {
    if xs != [] {
      MutateDispatchesAgree(c, xs[0]);
      MutateEachDispatchesAgree(c, xs[1..]);
    }
  }

  // ---------------------------------------------------------------------------
  // The type-keyed dispatch table
  // ---------------------------------------------------------------------------

  /** The ABIType classes the table is keyed by. */
  datatype AbiKind = KUfixed | KBool | KUint | KByte | KTuple | KArrayStatic | KAddress | KArrayDynamic | KString

  /** `isinstance(t, K)` holds for exactly one class K, or none for a foreign subclass. */
  function KindOf(t: AbiType): Option<AbiKind>
  {
    match t
    case UfixedType(_, _) => Some(KUfixed)
    case BoolType => Some(KBool)
    case UintType(_) => Some(KUint)
    case ByteType => Some(KByte)
    case TupleType(_) => Some(KTuple)
    case ArrayStaticType(_, _) => Some(KArrayStatic)
    case AddressType => Some(KAddress)
    case ArrayDynamicType(_) => Some(KArrayDynamic)
    case StringType => Some(KString)
    case OtherAbiType(_) => None
  }

  /** A table key: an ABIType class, or the string "DEFAULT". */
  datatype WaterfallKey = TypeKey(kind: AbiKind) | DefaultKey

  type Handler = PyValue -> Result<PyValue, PyError>

  type Waterfall = seq<(WaterfallKey, Handler)>

  /** The message Python gives when `isinstance` is handed a string as its class. */
  const ISINSTANCE_ARG_ERROR: string := "isinstance() arg 2 must be a type, a tuple of types, or a union"

  /** Where the loop of `map` as written stops: the first matching class key or the first "DEFAULT" key. */
  function FirstStop(w: Waterfall, t: AbiType): (r: Option<nat>)
    ensures r.Some? ==> r.value < |w| && (w[r.value].0.DefaultKey? || Some(w[r.value].0.kind) == KindOf(t))
    ensures r.Some? ==> forall j :: 0 <= j < r.value ==> w[j].0.TypeKey? && Some(w[j].0.kind) != KindOf(t)
    ensures r.None? ==> forall j :: 0 <= j < |w| ==> w[j].0.TypeKey? && Some(w[j].0.kind) != KindOf(t)
  {
    if w == [] then None
    else if w[0].0.DefaultKey? || Some(w[0].0.kind) == KindOf(t) then Some(0)
    else match FirstStop(w[1..], t)
      case None => None
      case Some(j) => Some(j + 1)
  }

  /** The first entry whose key is a class the type is an instance of. */
  function FirstTypeMatch(w: Waterfall, t: AbiType): (r: Option<nat>)
    ensures r.Some? ==> r.value < |w| && w[r.value].0.TypeKey? && Some(w[r.value].0.kind) == KindOf(t)
    ensures r.Some? ==> forall j :: 0 <= j < r.value ==> !(w[j].0.TypeKey? && Some(w[j].0.kind) == KindOf(t))
    ensures r.None? ==> forall j :: 0 <= j < |w| ==> !(w[j].0.TypeKey? && Some(w[j].0.kind) == KindOf(t))
  {
    if w == [] then None
    else if w[0].0.TypeKey? && Some(w[0].0.kind) == KindOf(t) then Some(0)
    else match FirstTypeMatch(w[1..], t)
      case None => None
      case Some(j) => Some(j + 1)
  }

  /** The entry `waterfall["DEFAULT"]` looks up. */
  function DefaultEntry(w: Waterfall): (r: Option<nat>)
    ensures r.Some? ==> r.value < |w| && w[r.value].0.DefaultKey?
    ensures r.None? ==> forall j :: 0 <= j < |w| ==> w[j].0.TypeKey?
  {
    if w == [] then None
    else if w[0].0.DefaultKey? then Some(0)
    else match DefaultEntry(w[1..])
      case None => None
      case Some(j) => Some(j + 1)
  }

  lemma {:induction false} FirstStopAt(w: Waterfall, t: AbiType, k: nat)
    requires k < |w| && (w[k].0.DefaultKey? || Some(w[k].0.kind) == KindOf(t))
    requires forall j :: 0 <= j < k ==> w[j].0.TypeKey? && Some(w[j].0.kind) != KindOf(t)
    ensures FirstStop(w, t) == Some(k)
  {
    if k > 0 { FirstStopAt(w[1..], t, k - 1); }
  }

  lemma {:induction false} FirstTypeMatchAt(w: Waterfall, t: AbiType, k: nat)
    requires k < |w| && w[k].0.TypeKey? && Some(w[k].0.kind) == KindOf(t)
    requires forall j :: 0 <= j < k ==> !(w[j].0.TypeKey? && Some(w[j].0.kind) == KindOf(t))
    ensures FirstTypeMatch(w, t) == Some(k)
  {
    if k > 0 { FirstTypeMatchAt(w[1..], t, k - 1); }
  }

  /** What `map` does as written: `isinstance(t, "DEFAULT")` raises before the default is reached. */
  function MapAsWrittenSpec(w: Waterfall, t: AbiType, v: PyValue): Result<PyValue, PyError>
  {
    match FirstStop(w, t)
    case None => Failure(KeyError("DEFAULT"))
    case Some(j) => if w[j].0.DefaultKey? then Failure(TypeError(ISINSTANCE_ARG_ERROR)) else w[j].1(v)
  }

  /** What `map` is evidently meant to do: the first matching class, else the "DEFAULT" handler. */
  function MapSpec(w: Waterfall, t: AbiType, v: PyValue): Result<PyValue, PyError>
  {
    match FirstTypeMatch(w, t)
    case Some(j) => w[j].1(v)
    case None =>
      match DefaultEntry(w)
      case None => Failure(KeyError("DEFAULT"))
      case Some(j) => w[j].1(v)
  }

  /** `map` as written: every key, "DEFAULT" included, goes through `isinstance`. */
  method MapAsWritten(w: Waterfall, t: AbiType, v: PyValue) returns (r: Result<PyValue, PyError>)
    ensures r == MapAsWrittenSpec(w, t, v)
  {
    var i := 0;
    while i < |w|
      invariant 0 <= i <= |w|
      invariant forall j :: 0 <= j < i ==> w[j].0.TypeKey? && Some(w[j].0.kind) != KindOf(t)
    {
      var key := w[i].0;
      if key.DefaultKey? || Some(key.kind) == KindOf(t) {
        FirstStopAt(w, t, i);
        if key.DefaultKey? {
          return Failure(TypeError(ISINSTANCE_ARG_ERROR));
        }
        return w[i].1(v);
      }
      i := i + 1;
    }
    assert FirstStop(w, t).None?;
    return Failure(KeyError("DEFAULT"));
  }

  /** `map` with the "DEFAULT" key kept out of the class tests. */
  method Map(w: Waterfall, t: AbiType, v: PyValue) returns (r: Result<PyValue, PyError>)
    ensures r == MapSpec(w, t, v)
  {
    var i := 0;
    while i < |w|
      invariant 0 <= i <= |w|
      invariant forall j :: 0 <= j < i ==> !(w[j].0.TypeKey? && Some(w[j].0.kind) == KindOf(t))
    {
      var key := w[i].0;
      if key.TypeKey? && Some(key.kind) == KindOf(t) {
        FirstTypeMatchAt(w, t, i);
        return w[i].1(v);
      }
      i := i + 1;
    }
    assert FirstTypeMatch(w, t).None?;
    var d := DefaultEntry(w);
    if d.None? {
      return Failure(KeyError("DEFAULT"));
    }
    return w[d.value].1(v);
  }

  /**
   * The table `mutate_for_roundtrip` builds for type `t`, in its order. The tuple, array
   * and byte entries mutate their parts with `mutate_for_roundtrip` again, so through the
   * same dispatch `d`.
   */
  function MutateWaterfall(d: Dispatch, t: AbiType): (w: Waterfall)
    ensures |w| == 10 && w[9].0 == DefaultKey
  {
    [ (TypeKey(KUfixed), (x: PyValue) => Failure(NotImplementedError(CANNOT_HANDLE_TYPE + TypeName(t)))),
      (TypeKey(KBool), (x: PyValue) => Success(PyBool(!Truthy(x)))),
      (TypeKey(KUint), (x: PyValue) => if t.UintType? then MutateUint(t.bitSize, x) else Failure(Exception(NO_BIT_SIZE))),
      (TypeKey(KByte), (x: PyValue) => Mutate(d, UintType(8), x)),
      (TypeKey(KTuple), (x: PyValue) => if t.TupleType? then MutateTuple(d, t.childTypes, x) else Failure(Exception(NO_CHILD_TYPES))),
      (TypeKey(KArrayStatic), (x: PyValue) => if t.ArrayStaticType? then MutateArray(d, t.childType, x) else Failure(Exception(NO_CHILD_TYPE))),
      (TypeKey(KAddress), (x: PyValue) => MutateAddress(x)),
      (TypeKey(KArrayDynamic), (x: PyValue) => if t.ArrayDynamicType? then MutateArray(d, t.childType, x) else Failure(Exception(NO_CHILD_TYPE))),
      (TypeKey(KString), (x: PyValue) => MutateString(x)),
      (DefaultKey, (x: PyValue) => Failure(ValueError(UNEXPECTED_ABI_TYPE + TypeName(t))))
    ]
  }

  /** The entry of `MutateWaterfall(d, t)` that handles `t`: its class, or "DEFAULT" for a foreign type. */
  function MutateSlot(t: AbiType): (k: nat)
    ensures k < 10
  {
    match t
    case UfixedType(_, _) => 0
    case BoolType => 1
    case UintType(_) => 2
    case ByteType => 3
    case TupleType(_) => 4
    case ArrayStaticType(_, _) => 5
    case AddressType => 6
    case ArrayDynamicType(_) => 7
    case StringType => 8
    case OtherAbiType(_) => 9
  }

  /**
   * Each class entry's handler mutates the way `Mutate` does for the types it is keyed by;
   * the "DEFAULT" handler raises the ValueError the corrected dispatch gives a foreign type.
   */
  lemma MutateSlotHandles(d: Dispatch, t: AbiType, v: PyValue)
    ensures KindOf(t).Some? ==> MutateWaterfall(d, t)[MutateSlot(t)].1(v) == Mutate(d, t, v)
    ensures KindOf(t).None? ==> MutateWaterfall(d, t)[MutateSlot(t)].1(v) == Mutate(Corrected, t, v)
  {
  }

  /** The corrected dispatch selects the entry of `t`'s own slot. */
  lemma MapSelectsMutateSlot(d: Dispatch, t: AbiType, v: PyValue)
    ensures MapSpec(MutateWaterfall(d, t), t, v) == MutateWaterfall(d, t)[MutateSlot(t)].1(v)
  {
    var w := MutateWaterfall(d, t);
    if KindOf(t).Some? {
      FirstTypeMatchAt(w, t, MutateSlot(t));
    } else {
      assert FirstTypeMatch(w, t) == None;
      assert DefaultEntry(w) == Some(9);
    }
  }

  /** The corrected dispatch, at every level of the source's table, is exactly `Mutate(Corrected, ..)`. */
  lemma MapDispatchesMutate(t: AbiType, v: PyValue)
    ensures MapSpec(MutateWaterfall(Corrected, t), t, v) == Mutate(Corrected, t, v)
  {
    MapSelectsMutateSlot(Corrected, t, v);
    MutateSlotHandles(Corrected, t, v);
  }

  /** `map` as written, at every level of the source's table, is exactly `Mutate(AsWritten, ..)`. */
  lemma MapAsWrittenDispatchesMutate(t: AbiType, v: PyValue)
    ensures MapAsWrittenSpec(MutateWaterfall(AsWritten, t), t, v) == Mutate(AsWritten, t, v)
  {
    FirstStopAt(MutateWaterfall(AsWritten, t), t, MutateSlot(t));
    MutateSlotHandles(AsWritten, t, v);
  }

  /**
   * For a type with no foreign part anywhere, the table as written agrees with the
   * corrected mutation: every level matches a class before "DEFAULT".
   */
  lemma MapAsWrittenAgreesOnKnownTypes(t: AbiType, v: PyValue)
    requires NoForeign(t)
    ensures MapAsWrittenSpec(MutateWaterfall(AsWritten, t), t, v) == Mutate(Corrected, t, v)
  {
    MapAsWrittenDispatchesMutate(t, v);
    MutateDispatchesAgree(t, v);
  }

  /**
   * As written, a foreign ABIType subclass never reaches `unexpected_type`: the loop
   * reaches the "DEFAULT" key first and `isinstance` raises a TypeError, where the
   * corrected dispatch reports the intended ValueError.
   */
  lemma UnknownTypeHitsDefaultKey(name: string, v: PyValue)
    ensures MapAsWrittenSpec(MutateWaterfall(AsWritten, OtherAbiType(name)), OtherAbiType(name), v) == Failure(TypeError(ISINSTANCE_ARG_ERROR))
    ensures Mutate(Corrected, OtherAbiType(name), v) == Failure(ValueError(UNEXPECTED_ABI_TYPE + name))
  {
    FirstStopAt(MutateWaterfall(AsWritten, OtherAbiType(name)), OtherAbiType(name), 9);
  }

  /**
   * The same holds one level down: a tuple of algosdk's class with a foreign child
   * raises the TypeError of `isinstance` from the child's own table.
   */
  lemma ForeignChildHitsDefaultKey(name: string)
    ensures MapAsWrittenSpec(MutateWaterfall(AsWritten, TupleType([OtherAbiType(name)])), TupleType([OtherAbiType(name)]), PyList([PyInt(0)]))
      == Failure(TypeError(ISINSTANCE_ARG_ERROR))
    ensures Mutate(Corrected, TupleType([OtherAbiType(name)]), PyList([PyInt(0)])) == Failure(ValueError(UNEXPECTED_ABI_TYPE + name))
  {
    var t := TupleType([OtherAbiType(name)]);
    MapAsWrittenDispatchesMutate(t, PyList([PyInt(0)]));
    assert MutateZip(AsWritten, [OtherAbiType(name)], [PyInt(0)]) == Failure(TypeError(ISINSTANCE_ARG_ERROR));
    assert Mutate(Corrected, OtherAbiType(name), PyInt(0)) == Failure(ValueError(UNEXPECTED_ABI_TYPE + name));
    assert MutateZip(Corrected, [OtherAbiType(name)], [PyInt(0)]) == Failure(ValueError(UNEXPECTED_ABI_TYPE + name));
  }

  /**
   * `RandomABIStrategy(t).mutate_for_roundtrip(v)`, through `map` as written at every level:
   * a type with no foreign part mutates as the corrected dispatch says, and a foreign
   * ABIType subclass raises the TypeError of `isinstance`.
   */
  method MutateForRoundtrip(t: AbiType, v: PyValue) returns (r: Result<PyValue, PyError>)
    ensures r == MapAsWrittenSpec(MutateWaterfall(AsWritten, t), t, v)
    ensures r == Mutate(AsWritten, t, v)
    ensures NoForeign(t) ==> r == Mutate(Corrected, t, v)
    ensures KindOf(t).None? ==> r == Failure(TypeError(ISINSTANCE_ARG_ERROR))
  {
    r := MapAsWritten(MutateWaterfall(AsWritten, t), t, v);
    MapAsWrittenDispatchesMutate(t, v);
    if NoForeign(t) {
      MutateDispatchesAgree(t, v);
    }
  }
}

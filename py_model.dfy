/**
 * The slice of Python's value semantics that the harness relies on: the dynamically
 * typed values that flow through it, the exceptions it raises, truthiness, negative
 * indexing, substring tests and the decimal and hexadecimal renderings that appear in
 * its messages and results.
 */
module PyModel {
  import opened Wrappers

  /** The message of Python's IndexError for a list or string index out of range. */
  const LIST_INDEX_OUT_OF_RANGE: string := "list index out of range"

  newtype byte = x: int | 0 <= x < 256

  /** A Python value as the harness sees it (argument tuples, dig results, predicates). */
  datatype PyValue =
    | PyNone
    | PyBool(b: bool)
    | PyInt(i: int)
    | PyStr(s: string)
    | PyBytes(bs: seq<byte>)
    | PyList(items: seq<PyValue>)
    | PyTuple(items: seq<PyValue>)
    | PyDict(entries: map<int, PyValue>)
      /** the text address that encodes the 32 raw bytes (its base32 form is not modelled) */
    | PyAddress(raw: seq<byte>)
      /** any other object, e.g. a float or a SuggestedParams instance */
    | PyOther(typeName: string)

  /** The exceptions the harness raises or lets escape. */
  datatype PyError =
    | AssertionError(msg: string)
    | KeyError(key: string)
    | IndexError(what: string)
    | TypeError(what: string)
    | ValueError(what: string)
    | NotImplementedError(what: string)
    | OverflowError(what: string)
    | Exception(what: string)

  /** Python's truth value of an object. */
  predicate Truthy(v: PyValue) {
    match v
    case PyNone => false
    case PyBool(b) => b
    case PyInt(i) => i != 0
    case PyStr(s) => s != ""
    case PyBytes(bs) => bs != []
    case PyList(xs) => xs != []
    case PyTuple(xs) => xs != []
    case PyDict(m) => m != map[]
    case PyAddress(_) => true
    case PyOther(_) => true
  }

  /** `s[k]` with Python's negative indexing; None where Python raises IndexError. */
  function PyIndex<T>(s: seq<T>, k: int): (r: Option<T>)
    ensures r.Some? <==> -|s| <= k < |s|
    ensures r.Some? && k >= 0 ==> r.value == s[k]
    ensures r.Some? && k < 0 ==> r.value == s[|s| + k]
  {
    if 0 <= k < |s| then Some(s[k])
    else if -|s| <= k < 0 then Some(s[|s| + k])
    else None
  }

  /** `sub in s` for strings. */
  predicate IsSubstring(sub: string, s: string) {
    sub <= s || (s != [] && IsSubstring(sub, s[1..]))
  }

  lemma {:induction false} SubstringOfConcat(a: string, sub: string, b: string)
    ensures IsSubstring(sub, a + sub + b)
  {
    if a == [] {
      assert sub <= sub + b;
      assert a + sub + b == sub + b;
    } else {
      SubstringOfConcat(a[1..], sub, b);
      assert (a + sub + b)[1..] == a[1..] + sub + b;
    }
  }

  function DigitChar(d: nat): char
    requires d < 10
  {
    "0123456789"[d]
  }

  /** `str(n)` for a natural number. */
  function NatToString(n: nat): string
  {
    if n < 10 then [DigitChar(n)] else NatToString(n / 10) + [DigitChar(n % 10)]
  }

  /** `str(i)` for an integer. */
  function IntToString(i: int): string
  {
    if i < 0 then "-" + NatToString(-i) else NatToString(i)
  }

  function HexDigit(d: nat): char
    requires d < 16
  {
    "0123456789abcdef"[d]
  }

  /** `bytes.hex()`: two lower-case hex digits per byte. */
  function Hex(bs: seq<byte>): (h: string)
    ensures |h| == 2 * |bs|
  {
    if bs == [] then ""
    else [HexDigit(bs[0] as nat / 16), HexDigit(bs[0] as nat % 16)] + Hex(bs[1..])
  }

  function Pow2(n: nat): (p: nat)
    ensures p >= 1
  {
    if n == 0 then 1 else 2 * Pow2(n - 1)
  }
}

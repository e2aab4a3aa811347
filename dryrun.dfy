/**
 * Error localisation in dry-run responses and the lightweight assertions built on it
 * (graviton/dryrun.py), plus the defaults filled into transaction parameters.
 */
module DryRun {
  import opened Wrappers
  import opened PyModel
  import opened DryRunResponse
  import opened Models

  // ---------------------------------------------------------------------------
  // find_error
  // ---------------------------------------------------------------------------

  /** `"error" in item`: a key of a structured step, a substring of a bare message. */
  predicate ItemHasError(item: TraceItem)
  {
    match item
    case Record(st) => st.error.Some?
    case Bare(text) => IsSubstring("error", text)
  }

  /**
   * The trace that is scanned for one transaction, with its program type: the app trace
   * with the app messages appended, else the logic-sig trace with its messages, else none.
   */
  function ScannedTrace(txn: Txn): (r: Option<(string, seq<TraceItem>)>)
    ensures txn.appCallTrace.Some? ==>
      r == Some(("app", Records(txn.appCallTrace.value)
                 + (if txn.appCallMessages.Some? then Bares(txn.appCallMessages.value) else [])))
    ensures txn.appCallTrace.None? && txn.logicSigTrace.Some? ==>
      r == Some(("logic", Records(txn.logicSigTrace.value)
                 + (if txn.logicSigMessages.Some? then Bares(txn.logicSigMessages.value) else [])))
    ensures txn.appCallTrace.None? && txn.logicSigTrace.None? ==> r.None?
  {
    if txn.appCallTrace.Some? then
      var msgs := if txn.appCallMessages.Some? then Bares(txn.appCallMessages.value) else [];
      Some(("app", Records(txn.appCallTrace.value) + msgs))
    else if txn.logicSigTrace.Some? then
      var msgs := if txn.logicSigMessages.Some? then Bares(txn.logicSigMessages.value) else [];
      Some(("logic", Records(txn.logicSigTrace.value) + msgs))
    else None
  }

  /** The structured step nearest before position `k`, found by scanning backward. */
  function NearestRecordBefore(trace: seq<TraceItem>, k: nat): (r: Option<nat>)
    requires k <= |trace|
    ensures r.Some? ==> r.value < k && trace[r.value].Record?
    ensures r.Some? ==> forall j :: r.value < j < k ==> trace[j].Bare?
    ensures r.None? ==> forall j :: 0 <= j < k ==> trace[j].Bare?
  {
    if k == 0 then None
    else if trace[k - 1].Record? then Some(k - 1)
    else NearestRecordBefore(trace, k - 1)
  }

  /** `f"{ptype} {idx} failed at line {line}: {error}"` */
  function Located(ptype: string, idx: nat, line: int, error: string): string
  {
    ptype + " " + NatToString(idx) + " failed at line " + IntToString(line) + ": " + error
  }

  const BACKTRACK_FAILED: string := "unexpected type when back-tracking- DryRun seems to be a moving target"

  /** The report for the error item at position `k`. */
  function ErrorAt(ptype: string, idx: nat, trace: seq<TraceItem>, k: nat): Result<Option<string>, PyError>
    requires k < |trace| && ItemHasError(trace[k])
  {
    match trace[k]
    case Record(st) => Success(Some(Located(ptype, idx, st.line, st.error.value)))
    case Bare(text) =>
      match NearestRecordBefore(trace, k)
      case None => Failure(AssertionError(BACKTRACK_FAILED))
      case Some(j) => Success(Some(Located(ptype, idx, trace[j].step.line, text)))
  }

  /** The report for the first error item at position `from` or later, if any. */
  function TraceError(ptype: string, idx: nat, trace: seq<TraceItem>, from: nat): Result<Option<string>, PyError>
    requires from <= |trace|
    decreases |trace| - from
  {
    if from == |trace| then Success(None)
    else if ItemHasError(trace[from]) then ErrorAt(ptype, idx, trace, from)
    else TraceError(ptype, idx, trace, from + 1)
  }

  /** Scanning transactions from `from` on, only `txnIndex` when one is given. */
  function TxnsError(txns: seq<Txn>, txnIndex: Option<int>, from: nat): Result<Option<string>, PyError>
    requires from <= |txns|
    decreases |txns| - from
  {
    if from == |txns| then Success(None)
    else if txnIndex.Some? && txnIndex.value != from then TxnsError(txns, txnIndex, from + 1)
    else match ScannedTrace(txns[from])
      case None => TxnsError(txns, txnIndex, from + 1)
      case Some((ptype, trace)) =>
        var e := TraceError(ptype, from, trace, 0);
        if e.Failure? || e.value.Some? then e else TxnsError(txns, txnIndex, from + 1)
  }

  function OutOfRange(txnIndex: int, n: nat): string
  {
    "txn index " + IntToString(txnIndex) + " is out of range [0, " + NatToString(n) + ")"
  }

  /** What `find_error(drr, txn_index)` reports. */
  function FirstError(drr: Response, txnIndex: Option<int>): (r: Result<Option<string>, PyError>)
    ensures drr.error.Some? && drr.error.value != "" ==> r == Success(Some(drr.error.value))
    ensures (drr.error.None? || drr.error.value == "") && drr.txns.Some? && txnIndex.Some?
            && !(0 <= txnIndex.value < |drr.txns.value|) ==>
      r == Success(Some(OutOfRange(txnIndex.value, |drr.txns.value|)))
  {
    if drr.error.Some? && |drr.error.value| > 0 then Success(Some(drr.error.value))
    else if drr.txns.None? then Success(None)
    else if txnIndex.Some? && (txnIndex.value < 0 || txnIndex.value >= |drr.txns.value|) then
      Success(Some(OutOfRange(txnIndex.value, |drr.txns.value|)))
    else TxnsError(drr.txns.value, txnIndex, 0)
  }

  /** `DryRunHelper.find_error`. */
  method FindError(drr: Response, txnIndex: Option<int>) returns (r: Result<Option<string>, PyError>)
    ensures r == FirstError(drr, txnIndex)
  {
    if drr.error.Some? && |drr.error.value| > 0 {
      return Success(Some(drr.error.value));
    }
    if drr.txns.None? {
      return Success(None);
    }
    var txns := drr.txns.value;
    if txnIndex.Some? && (txnIndex.value < 0 || txnIndex.value >= |txns|) {
      return Success(Some(OutOfRange(txnIndex.value, |txns|)));
    }
    var idx := 0;
    while idx < |txns|
      invariant 0 <= idx <= |txns|
      invariant TxnsError(txns, txnIndex, 0) == TxnsError(txns, txnIndex, idx)
    {
      if txnIndex.Some? && txnIndex.value != idx {
        idx := idx + 1;
        continue;
      }
      var txn := txns[idx];
      var ptype: string;
      var trace: seq<TraceItem>;
      if txn.appCallTrace.Some? {
        ptype := "app";
        trace := Records(txn.appCallTrace.value);
        if txn.appCallMessages.Some? {
          trace := trace + Bares(txn.appCallMessages.value);
        }
      } else if txn.logicSigTrace.Some? {
        ptype := "logic";
        trace := Records(txn.logicSigTrace.value);
        if txn.logicSigMessages.Some? {
          trace := trace + Bares(txn.logicSigMessages.value);
        }
      } else {
        idx := idx + 1;
        continue;
      }
      assert trace + [] == trace;
      assert ScannedTrace(txn) == Some((ptype, trace));
      var e := ScanTrace(ptype, idx, trace);
      if e.Failure? || e.value.Some? {
        return e;
      }
      idx := idx + 1;
    }
    return Success(None);
  }

  /** The scan of one transaction's trace, back-tracking from a bare message to its step. */
  method ScanTrace(ptype: string, idx: nat, trace: seq<TraceItem>) returns (r: Result<Option<string>, PyError>)
    ensures r == TraceError(ptype, idx, trace, 0)
  {
    var trIdx := 0;
    while trIdx < |trace|
      invariant 0 <= trIdx <= |trace|
      invariant TraceError(ptype, idx, trace, 0) == TraceError(ptype, idx, trace, trIdx)
    {
      var item := trace[trIdx];
      if ItemHasError(item) {
        if item.Record? {
          return Success(Some(Located(ptype, idx, item.step.line, item.step.error.value)));
        }
        var errMsg := item.text;
        var k := trIdx;
        while item.Bare? && k > 0
          invariant 0 <= k <= trIdx
          invariant item == trace[k]
          invariant NearestRecordBefore(trace, trIdx) == (if item.Record? then Some(k) else NearestRecordBefore(trace, k))
          decreases k
        {
          k := k - 1;
          item := trace[k];
        }
        if !item.Record? {
          return Failure(AssertionError(BACKTRACK_FAILED));
        }
        return Success(Some(Located(ptype, idx, item.step.line, errMsg)));
      }
      trIdx := trIdx + 1;
    }
    return Success(None);
  }

  /** No error is reported for a trace iff none of its items carries one. */
  lemma {:induction false} TraceErrorNoneIff(ptype: string, idx: nat, trace: seq<TraceItem>, from: nat)
    requires from <= |trace|
    ensures TraceError(ptype, idx, trace, from) == Success(None) <==>
      forall j :: from <= j < |trace| ==> !ItemHasError(trace[j])
    decreases |trace| - from
  {
    if from < |trace| {
      TraceErrorNoneIff(ptype, idx, trace, from + 1);
      if ItemHasError(trace[from]) {
        match trace[from]
        case Record(_) =>
        case Bare(_) =>
      }
    }
  }

  /** The report is that of the first error item: earlier items are clean. */
  lemma {:induction false} TraceErrorIsFirst(ptype: string, idx: nat, trace: seq<TraceItem>, from: nat, k: nat)
    requires from <= k < |trace| && ItemHasError(trace[k])
    requires forall j :: from <= j < k ==> !ItemHasError(trace[j])
    ensures TraceError(ptype, idx, trace, from) == ErrorAt(ptype, idx, trace, k)
    decreases k - from
  {
    if from < k {
      TraceErrorIsFirst(ptype, idx, trace, from + 1, k);
    }
  }

  /**
   * A bare message following at least one structured step is reported with the line of
   * the nearest preceding step; a bare message with no step before it is an assertion failure.
   */
  lemma BareErrorTakesPrecedingLine(ptype: string, idx: nat, trace: seq<TraceItem>, k: nat)
    requires k < |trace| && trace[k].Bare? && ItemHasError(trace[k])
    ensures (exists j :: 0 <= j < k && trace[j].Record?) ==>
      var j := NearestRecordBefore(trace, k).value;
      ErrorAt(ptype, idx, trace, k) == Success(Some(Located(ptype, idx, trace[j].step.line, trace[k].text)))
      && forall i :: j < i < k ==> trace[i].Bare?
    ensures (forall j :: 0 <= j < k ==> trace[j].Bare?) ==>
      ErrorAt(ptype, idx, trace, k) == Failure(AssertionError(BACKTRACK_FAILED))
  {
    if exists j :: 0 <= j < k && trace[j].Record? {
      assert NearestRecordBefore(trace, k).Some?;
    }
  }

  /** With no document error and every index in range, nothing is found iff no scanned transaction has an error item. */
  lemma {:induction false} TxnsErrorNoneIff(txns: seq<Txn>, txnIndex: Option<int>, from: nat)
    requires from <= |txns|
    ensures TxnsError(txns, txnIndex, from) == Success(None) <==>
      forall j :: from <= j < |txns| && (txnIndex.None? || txnIndex.value == j) && ScannedTrace(txns[j]).Some? ==>
        forall k :: 0 <= k < |ScannedTrace(txns[j]).value.1| ==> !ItemHasError(ScannedTrace(txns[j]).value.1[k])
    decreases |txns| - from
  {
    if from < |txns| {
      TxnsErrorNoneIff(txns, txnIndex, from + 1);
      if !(txnIndex.Some? && txnIndex.value != from) && ScannedTrace(txns[from]).Some? {
        var (ptype, trace) := ScannedTrace(txns[from]).value;
        TraceErrorNoneIff(ptype, from, trace, 0);
      }
    }
  }

  /** Given an index, only that transaction is scanned. */
  lemma {:induction false} OnlyIndexedTxnScanned(txns: seq<Txn>, i: nat, from: nat)
    requires from <= i < |txns|
    ensures TxnsError(txns, Some(i), from) ==
      match ScannedTrace(txns[i])
      case None => Success(None)
      case Some((ptype, trace)) => TraceError(ptype, i, trace, 0)
    decreases i - from
  {
    if from < i {
      OnlyIndexedTxnScanned(txns, i, from + 1);
    } else {
      match ScannedTrace(txns[i])
      case None => SkipAfter(txns, i, i + 1);
      case Some((ptype, trace)) =>
        var e := TraceError(ptype, i, trace, 0);
        if !(e.Failure? || e.value.Some?) { SkipAfter(txns, i, i + 1); }
    }
  }

  lemma {:induction false} SkipAfter(txns: seq<Txn>, i: nat, from: nat)
    requires i < from <= |txns|
    ensures TxnsError(txns, Some(i), from) == Success(None)
    decreases |txns| - from
  {
    if from < |txns| { SkipAfter(txns, i, from + 1); }
  }

  // ---------------------------------------------------------------------------
  // Lightweight assertions
  // ---------------------------------------------------------------------------

  /** `_msg_if(msg)` */
  function MsgIf(msg: Option<string>): string
  {
    if msg.None? then "" else ": " + msg.value
  }

  /** How an optional string renders in an f-string. */
  function StrOrNone(s: Option<string>): string
  {
    if s.None? then "None" else s.value
  }

  /** `_assert_in(status, msgs, msg, enforce)` where `msgs` is a string. */
  function AssertIn(status: string, msgs: string, msg: Option<string>, enforce: bool)
    : (r: Result<(bool, Option<string>), PyError>)
    ensures r.Success? ==> (r.value.0 <==> IsSubstring(status, msgs))
    ensures r.Success? ==> (r.value.1.None? <==> r.value.0)
    ensures r.Failure? <==> enforce && !IsSubstring(status, msgs)
  {
    if IsSubstring(status, msgs) then Success((true, None))
    else
      var result := status + " should be in " + msgs + MsgIf(msg);
      if enforce then Failure(AssertionError(result)) else Success((false, Some(result)))
  }

  /** `bool(error)` for the result of `find_error` */
  predicate ErrorFound(error: Option<string>)
  {
    error.Some? && error.value != ""
  }

  /** `assert_error`: ok iff an error is found and, when given, `contains` is a substring of it. */
  function AssertError(drr: Response, contains: Option<string>, txnIndex: Option<int>, msg: Option<string>, enforce: bool)
    : (r: Result<(bool, Option<string>), PyError>)
    ensures FirstError(drr, txnIndex).Failure? ==> r == Failure(FirstError(drr, txnIndex).error)
    ensures r.Success? ==>
      (r.value.0 <==> ErrorFound(FirstError(drr, txnIndex).value)
                      && (contains.Some? ==> IsSubstring(contains.value, FirstError(drr, txnIndex).value.value)))
    ensures r.Success? ==> (r.value.1.None? <==> r.value.0)
    ensures FirstError(drr, txnIndex).Success? && !enforce ==> r.Success?
  {
    var error :- FirstError(drr, txnIndex);
    if !ErrorFound(error) then
      var result := "expected truthy error but got " + StrOrNone(error) + MsgIf(msg);
      if enforce then Failure(AssertionError(result)) else Success((false, Some(result)))
    else if contains.Some? then AssertIn(contains.value, error.value, None, enforce)
    else Success((true, None))
  }

  /** `assert_no_error`: ok iff no error is found; the message is `f"{msg}: {error}"` plus `_msg_if(msg)`. */
  function AssertNoError(drr: Response, txnIndex: Option<int>, msg: Option<string>, enforce: bool)
    : (r: Result<(bool, Option<string>), PyError>)
    ensures FirstError(drr, txnIndex).Failure? ==> r == Failure(FirstError(drr, txnIndex).error)
    ensures r.Success? ==> (r.value.0 <==> !ErrorFound(FirstError(drr, txnIndex).value))
    ensures r.Success? && !r.value.0 ==>
      r.value.1 == Some(StrOrNone(msg) + ": " + FirstError(drr, txnIndex).value.value + MsgIf(msg))
    ensures r.Success? && r.value.0 ==> r.value.1.None?
    ensures FirstError(drr, txnIndex).Success? && !enforce ==> r.Success?
  {
    var error :- FirstError(drr, txnIndex);
    if ErrorFound(error) then
      var result := StrOrNone(msg) + ": " + error.value + MsgIf(msg);
      if enforce then Failure(AssertionError(result)) else Success((false, Some(result)))
    else Success((true, None))
  }

  // ---------------------------------------------------------------------------
  // Transaction-parameter defaults
  // ---------------------------------------------------------------------------

  /** `SuggestedParams(1000, 1, 100, "", flat_fee=True)`, as a record of its arguments */
  const DEFAULT_SP: PyValue :=
    PyTuple([PyStr("SuggestedParams"), PyInt(1000), PyInt(1), PyInt(100), PyStr(""), PyBool(true)])

  /** `OnComplete.NoOpOC` */
  const NOOP_OC: int := 0

  /** The keys filled in, with their defaults. */
  function Defaults(forApp: bool): (d: map<string, PyValue>)
    ensures "sender" in d && "sp" in d
  {
    if forApp then
      map["sender" := PyStr(ZERO_ADDRESS), "sp" := DEFAULT_SP, "index" := PyInt(0), "on_complete" := PyInt(NOOP_OC)]
    else
      map["sender" := PyStr(ZERO_ADDRESS), "sp" := DEFAULT_SP, "receiver" := PyStr(ZERO_ADDRESS), "amt" := PyInt(0)]
  }

  /** `if key not in d: d[key] = value` */
  method SetIfMissing(d: map<string, PyValue>, key: string, value: PyValue) returns (r: map<string, PyValue>)
    ensures r.Keys == d.Keys + {key}
    ensures forall k :: k in d ==> r[k] == d[k]
    ensures key !in d ==> r[key] == value
  {
    r := d;
    if key !in r {
      r := r[key := value];
    }
  }

  /** Four `SetIfMissing` steps in a row keep every old key and fill each missing one with its value. */
  lemma FillFour(m0: map<string, PyValue>, m4: map<string, PyValue>, d: map<string, PyValue>,
                 k1: string, v1: PyValue, k2: string, v2: PyValue, k3: string, v3: PyValue, k4: string, v4: PyValue,
                 m1: map<string, PyValue>, m2: map<string, PyValue>, m3: map<string, PyValue>)
    requires m1.Keys == m0.Keys + {k1} && (forall k :: k in m0 ==> m1[k] == m0[k]) && (k1 !in m0 ==> m1[k1] == v1)
    requires m2.Keys == m1.Keys + {k2} && (forall k :: k in m1 ==> m2[k] == m1[k]) && (k2 !in m1 ==> m2[k2] == v2)
    requires m3.Keys == m2.Keys + {k3} && (forall k :: k in m2 ==> m3[k] == m2[k]) && (k3 !in m2 ==> m3[k3] == v3)
    requires m4.Keys == m3.Keys + {k4} && (forall k :: k in m3 ==> m4[k] == m3[k]) && (k4 !in m3 ==> m4[k4] == v4)
    requires d.Keys == {k1, k2, k3, k4}
    requires d[k1] == v1 && d[k2] == v2 && d[k3] == v3 && d[k4] == v4
    ensures m4.Keys == m0.Keys + d.Keys
    ensures forall k :: k in m0 ==> m4[k] == m0[k]
    ensures forall k :: k in d && k !in m0 ==> m4[k] == d[k]
  {
  }

  /**
   * `_txn_params_with_defaults`: a copy of the input with every missing required key set
   * to its default; keys already present keep their values.
   */
  method TxnParamsWithDefaults(txnParams: map<string, PyValue>, forApp: bool) returns (out: map<string, PyValue>)
    ensures out.Keys == txnParams.Keys + Defaults(forApp).Keys
    ensures forall k :: k in txnParams ==> out[k] == txnParams[k]
    ensures forall k :: k in Defaults(forApp) && k !in txnParams ==> out[k] == Defaults(forApp)[k]
  {
    var withSender := SetIfMissing(txnParams, "sender", PyStr(ZERO_ADDRESS));
    var withSp := SetIfMissing(withSender, "sp", DEFAULT_SP);
    if forApp {
      var withIndex := SetIfMissing(withSp, "index", PyInt(0));
      out := SetIfMissing(withIndex, "on_complete", PyInt(NOOP_OC));
      FillFour(txnParams, out, Defaults(true), "sender", PyStr(ZERO_ADDRESS), "sp", DEFAULT_SP,
               "index", PyInt(0), "on_complete", PyInt(NOOP_OC), withSender, withSp, withIndex);
    } else {
      var withReceiver := SetIfMissing(withSp, "receiver", PyStr(ZERO_ADDRESS));
      out := SetIfMissing(withReceiver, "amt", PyInt(0));
      FillFour(txnParams, out, Defaults(false), "sender", PyStr(ZERO_ADDRESS), "sp", DEFAULT_SP,
               "receiver", PyStr(ZERO_ADDRESS), "amt", PyInt(0), withSender, withSp, withReceiver);
    }
  }
}

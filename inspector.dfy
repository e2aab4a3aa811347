/**
 * Everything the harness derives from one dry-run transaction (graviton/inspector.py):
 * the assertable properties, the dual-typed TEAL values of stacks and scratch slots,
 * the per-step normalisation of a trace, and the inspector that answers property queries.
 */
module Inspector {
  import opened Wrappers
  import opened PyModel
  import opened DryRunResponse
  import opened Models
  import opened AbiStrategy
  import DryRun

  // Messages of the exceptions raised here, as Python spells them.
  const NO_TRANSACTIONS: string := "Dry Run response is missing transactions"
  const TXN_INDEX_OUT_OF_BOUNDS: string := "Out of bounds txn_index "
  const ONLY_TXNS: string := " when there are only "
  const TXNS_IN_RESPONSE: string := " transactions in the Dry Run response"
  const UNTYPED_STACK_VARIABLE: string := "can't handle StackVariable with empty type"
  const CANNOT_DIG: string := "cannot handle dig information from txn for this assertion type"
  const RESPONSE_ERROR: string := "dryrun response included the following error: ["
  const MAX_OF_EMPTY: string := "max() arg is an empty sequence"
  const NOT_SINGLETON: string := "require exactly 1 dry run transaction to create a singleton but had "
  const UNKNOWN_CONFIG_OPTIONS: string := "unknown config options"

  // ---------------------------------------------------------------------------
  // Properties and modes
  // ---------------------------------------------------------------------------

  datatype DryRunProperty =
    | Cost | BudgetAdded | BudgetConsumed | LastLog | FinalScratch | StackTop | MaxStackHeight
    | Status | Rejected | Passed | Error | ErrorMessage | GlobalStateHas | LocalStateHas | LastMessage

  /** The properties a mode cannot report. */
  function Missing(mode: ExecutionMode): set<DryRunProperty>
  {
    match mode
    case Signature => {Cost, BudgetAdded, BudgetConsumed, LastLog}
    case Application => {}
  }

  /** `mode_has_property(mode, p)` */
  function ModeHasProperty(mode: ExecutionMode, p: DryRunProperty): (r: bool)
    ensures mode == Application ==> r
    ensures mode == Signature ==> (r <==> !(p.Cost? || p.BudgetAdded? || p.BudgetConsumed? || p.LastLog?))
  {
    p !in Missing(mode)
  }

  // ---------------------------------------------------------------------------
  // TealVal
  // ---------------------------------------------------------------------------

  /** A TEAL value: an int, bytes, which of the two it is (unknown when None), and whether an empty value prints as "". */
  datatype TealVal = TealVal(i: int, b: seq<byte>, isB: Option<bool>, hideEmpty: bool)

  /** `TealVal.from_stack`: the type tag decides, and empty values are shown. */
  function FromStack(e: StackEntry): (tv: TealVal)
    ensures tv.i == e.uint && tv.b == e.bytes
    ensures tv.isB == Some(e.typ == 1) && !tv.hideEmpty
  {
    TealVal(e.uint, e.bytes, Some(e.typ == 1), false)
  }

  /** `TealVal.from_scratch`: non-empty bytes decide, and empty values are hidden. */
  function FromScratch(e: StackEntry): (tv: TealVal)
    ensures tv.i == e.uint && tv.b == e.bytes
    ensures tv.isB == Some(|e.bytes| > 0) && tv.hideEmpty
  {
    TealVal(e.uint, e.bytes, Some(|e.bytes| > 0), true)
  }

  /** `is_empty()`: the zero int and the empty byte string. */
  predicate IsEmpty(tv: TealVal)
  {
    tv.i == 0 && tv.b == []
  }

  /** `str(tv)`: "" for a hidden empty value, else "0x" and the hex of the bytes, or the decimal int. */
  function Str(tv: TealVal): (r: Result<string, PyError>)
    ensures r.Failure? <==> !(tv.hideEmpty && IsEmpty(tv)) && tv.isB.None?
    ensures r.Success? && tv.isB == Some(true) && !(tv.hideEmpty && IsEmpty(tv)) ==>
      |r.value| == 2 + 2 * |tv.b| && r.value[..2] == "0x"
  {
    if tv.hideEmpty && IsEmpty(tv) then Success("")
    else if tv.isB.None? then Failure(AssertionError(UNTYPED_STACK_VARIABLE))
    else if tv.isB.value then Success("0x" + Hex(tv.b))
    else Success(IntToString(tv.i))
  }

  /** `as_python_type()`: None for an untyped value, the string form for bytes, else the int. */
  function AsPythonType(tv: TealVal): (v: PyValue)
    ensures tv.isB.None? <==> v.PyNone?
    ensures tv.isB == Some(false) <==> v == PyInt(tv.i)
    ensures tv.isB == Some(true) <==> v.PyStr? && Str(tv) == Success(v.s)
  {
    if tv.isB.None? then PyNone
    else if tv.isB.value then PyStr(Str(tv).value)
    else PyInt(tv.i)
  }

  /** A non-empty scratch slot reads back as "0x"-hex when it holds bytes and as its int otherwise. */
  lemma ScratchSlotValue(e: StackEntry)
    requires !IsEmpty(FromScratch(e))
    ensures |e.bytes| > 0 ==> AsPythonType(FromScratch(e)) == PyStr("0x" + Hex(e.bytes))
    ensures |e.bytes| == 0 ==> AsPythonType(FromScratch(e)) == PyInt(e.uint) && e.uint != 0
  {
  }

  // ---------------------------------------------------------------------------
  // DryRunResults.scrape
  // ---------------------------------------------------------------------------

  datatype DryRunResults = DryRunResults(
    stepsExecuted: nat,
    programCounters: seq<int>,
    tealLineNumbers: seq<int>,
    tealSourceLines: seq<string>,
    rawStacks: seq<seq<TealVal>>,
    scratchEvolution: seq<map<int, TealVal>>,
    finalScratchState: map<int, TealVal>,
    slotsUsed: seq<int>)

  /** Every step's line number points into the disassembly (Python indexing of `lines[ln - 1]`). */
  predicate LinesResolve(trace: seq<Step>, lines: seq<string>)
  {
    forall i :: 0 <= i < |trace| ==> PyIndex(lines, trace[i].line - 1).Some?
  }

  /** `line_or_err(i, ln)`: the step's error message when it has a non-empty one, else its source line. */
  function SourceLine(st: Step, lines: seq<string>): string
    requires PyIndex(lines, st.line - 1).Some?
  {
    var line := PyIndex(lines, st.line - 1).value;
    if st.error.Some? && st.error.value != "" then st.error.value else line
  }

  /** `{i: s for i, s in enumerate(scratch) if not s.is_empty()}` */
  function NonEmptySlots(scratch: seq<StackEntry>): (m: map<int, TealVal>)
    ensures forall k :: k in m <==> 0 <= k < |scratch| && !IsEmpty(FromScratch(scratch[k]))
    ensures forall k :: k in m ==> m[k] == FromScratch(scratch[k]) && !IsEmpty(m[k])
  {
    map k | 0 <= k < |scratch| && !IsEmpty(FromScratch(scratch[k])) :: FromScratch(scratch[k])
  }

  function StepSlots(st: Step): map<int, TealVal>
  {
    NonEmptySlots(if st.scratch.Some? then st.scratch.value else [])
  }

  /** `compute_delta(prev, curr)`: the new slots if any appeared, else the slots whose value changed. */
  function ScratchDelta(prev: map<int, TealVal>, curr: map<int, TealVal>): (d: map<int, TealVal>)
    ensures forall k :: k in d ==> k in curr && d[k] == curr[k]
    ensures curr.Keys - prev.Keys != {} ==> d.Keys == curr.Keys - prev.Keys
    ensures curr.Keys - prev.Keys == {} ==>
      forall k :: k in d <==> k in curr && k in prev && prev[k] != curr[k]
  {
    var newKeys := curr.Keys - prev.Keys;
    if newKeys != {} then map k | k in newKeys :: curr[k]
    else map k | k in curr && k in prev && prev[k] != curr[k] :: curr[k]
  }

  /**
   * Applying a delta to the previous slots gives the current slots exactly when no slot was
   * emptied and, if slots appeared, no existing slot changed in the same step.
   */
  lemma DeltaPatchesScratch(prev: map<int, TealVal>, curr: map<int, TealVal>)
    ensures prev + ScratchDelta(prev, curr) == curr <==>
      prev.Keys <= curr.Keys
      && (curr.Keys - prev.Keys != {} ==> forall k :: k in prev ==> prev[k] == curr[k])
  {
    var d := ScratchDelta(prev, curr);
    var newKeys := curr.Keys - prev.Keys;
    if prev.Keys <= curr.Keys && (newKeys != {} ==> forall k :: k in prev ==> prev[k] == curr[k]) {
      forall k | k in curr ensures k in prev + d && (prev + d)[k] == curr[k] {
        if k in d {
          assert (prev + d)[k] == d[k];
        } else if newKeys != {} {
          assert k in prev;
        } else {
          assert k !in newKeys;
          assert k in prev && prev[k] == curr[k];
        }
      }
      assert (prev + d).Keys == curr.Keys;
    }
    if prev + d == curr {
      assert prev.Keys <= curr.Keys;
      if newKeys != {} {
        forall k | k in prev ensures prev[k] == curr[k] {
          assert k !in d;
          assert (prev + d)[k] == prev[k];
        }
      }
    }
  }

  /** The slot numbers in [0, n) that appear in `s`, in increasing order. */
  function SlotsBelow(s: set<int>, n: nat): (r: seq<int>)
    ensures forall i, j :: 0 <= i < j < |r| ==> r[i] < r[j]
    ensures forall x :: x in r <==> x in s && 0 <= x < n
  {
    if n == 0 then []
    else
      var rest := SlotsBelow(s, n - 1);
      var last := if n - 1 in s then [n - 1] else [];
      forall i | 0 <= i < |rest| ensures rest[i] < n - 1 {
        assert rest[i] in rest;
      }
      assert forall i :: 0 <= i < |rest| ==> (rest + last)[i] == rest[i];
      assert forall x :: x in rest + last <==> x in rest || x in last;
      rest + last
  }

  function UnionKeys(scr: seq<map<int, TealVal>>): set<int>
  {
    if scr == [] then {} else UnionKeys(scr[..|scr| - 1]) + scr[|scr| - 1].Keys
  }

  lemma {:induction false} UnionKeysMembership(scr: seq<map<int, TealVal>>)
    ensures forall k :: k in UnionKeys(scr) <==> exists i :: 0 <= i < |scr| && k in scr[i]
  {
    if scr != [] {
      var pre := scr[..|scr| - 1];
      UnionKeysMembership(pre);
      assert forall i :: 0 <= i < |pre| ==> pre[i] == scr[i];
    }
  }

  function ScratchLen(st: Step): nat
  {
    if st.scratch.Some? then |st.scratch.value| else 0
  }

  /** A bound on every slot number in the trace. */
  function MaxScratchLen(trace: seq<Step>): (n: nat)
    ensures forall i :: 0 <= i < |trace| ==> ScratchLen(trace[i]) <= n
  {
    if trace == [] then 0
    else
      var rest := MaxScratchLen(trace[1..]);
      assert forall i :: 1 <= i < |trace| ==> trace[i] == trace[1..][i - 1];
      if ScratchLen(trace[0]) > rest then ScratchLen(trace[0]) else rest
  }

  /** `_scr2`: the non-empty slots of every step. */
  function AllSlots(trace: seq<Step>): (r: seq<map<int, TealVal>>)
    ensures |r| == |trace| && forall i :: 0 <= i < |trace| ==> r[i] == StepSlots(trace[i])
  {
    seq(|trace|, i requires 0 <= i < |trace| => StepSlots(trace[i]))
  }

  lemma SlotsBounded(trace: seq<Step>)
    ensures forall k :: k in UnionKeys(AllSlots(trace)) ==> 0 <= k < MaxScratchLen(trace)
  {
    var scr := AllSlots(trace);
    UnionKeysMembership(scr);
    forall k | k in UnionKeys(scr) ensures 0 <= k < MaxScratchLen(trace) {
      var i :| 0 <= i < |scr| && k in scr[i];
      var st := trace[i];
      assert k in StepSlots(st);
      assert 0 <= k < ScratchLen(st) by {
        var entries := if st.scratch.Some? then st.scratch.value else [];
        assert k in NonEmptySlots(entries);
        assert |entries| == ScratchLen(st);
      }
      assert ScratchLen(st) <= MaxScratchLen(trace);
    }
  }

  /** `sorted(set().union(*(s.keys() for s in _scr2)))` */
  function SlotsUsed(trace: seq<Step>): (r: seq<int>)
    ensures forall i, j :: 0 <= i < j < |r| ==> r[i] < r[j]
    ensures forall k :: k in r <==> exists i :: 0 <= i < |trace| && k in AllSlots(trace)[i]
  {
    UnionKeysMembership(AllSlots(trace));
    SlotsBounded(trace);
    SlotsBelow(UnionKeys(AllSlots(trace)), MaxScratchLen(trace))
  }

  function ProgramCounters(trace: seq<Step>): (r: seq<int>)
    ensures |r| == |trace| && forall i :: 0 <= i < |trace| ==> r[i] == trace[i].pc
  {
    seq(|trace|, i requires 0 <= i < |trace| => trace[i].pc)
  }

  function LineNumbers(trace: seq<Step>): (r: seq<int>)
    ensures |r| == |trace| && forall i :: 0 <= i < |trace| ==> r[i] == trace[i].line
  {
    seq(|trace|, i requires 0 <= i < |trace| => trace[i].line)
  }

  function SourceLines(trace: seq<Step>, lines: seq<string>): (r: seq<string>)
    requires LinesResolve(trace, lines)
    ensures |r| == |trace| && forall i :: 0 <= i < |trace| ==> r[i] == SourceLine(trace[i], lines)
  {
    seq(|trace|, i requires 0 <= i < |trace| => SourceLine(trace[i], lines))
  }

  function RawStacks(trace: seq<Step>): (r: seq<seq<TealVal>>)
    ensures |r| == |trace| && forall i :: 0 <= i < |trace| ==> r[i] == RawStack(trace[i])
  {
    seq(|trace|, i requires 0 <= i < |trace| => RawStack(trace[i]))
  }

  /** The specification of `scratch_deltas`. */
  function Deltas(slots: seq<map<int, TealVal>>): (r: seq<map<int, TealVal>>)
    ensures |r| == |slots|
    ensures slots != [] ==> r[0] == slots[0]
    ensures forall i :: 0 < i < |slots| ==> r[i] == ScratchDelta(slots[i - 1], slots[i])
  {
    seq(|slots|, i requires 0 <= i < |slots| => if i == 0 then slots[0] else ScratchDelta(slots[i - 1], slots[i]))
  }

  /** The contents `scrape(trace, lines)` produces, field by field. */
  predicate Scraped(trace: seq<Step>, lines: seq<string>, r: DryRunResults)
    requires LinesResolve(trace, lines) && trace != []
  {
    r.stepsExecuted == |trace|
    && r.programCounters == ProgramCounters(trace)
    && r.tealLineNumbers == LineNumbers(trace)
    && r.tealSourceLines == SourceLines(trace, lines)
    && r.rawStacks == RawStacks(trace)
    && r.scratchEvolution == Deltas(AllSlots(trace))
    && r.finalScratchState == StepSlots(trace[|trace| - 1])
    && r.slotsUsed == SlotsUsed(trace)
  }

  function RawStack(st: Step): (s: seq<TealVal>)
    ensures |s| == |st.stack| && forall j :: 0 <= j < |st.stack| ==> s[j] == FromStack(st.stack[j])
  {
    seq(|st.stack|, j requires 0 <= j < |st.stack| => FromStack(st.stack[j]))
  }

  /** `DryRunResults.scrape(trace, lines)`: it fails on an unresolvable line and on an empty trace. */
  function ScrapeSpec(trace: seq<Step>, lines: seq<string>): (r: Result<DryRunResults, PyError>)
    ensures r.Success? <==> LinesResolve(trace, lines) && trace != []
    ensures r.Failure? ==> r.error.IndexError?
    ensures r.Success? ==> Scraped(trace, lines, r.value)
  {
    if !LinesResolve(trace, lines) || trace == [] then Failure(IndexError(LIST_INDEX_OUT_OF_RANGE))
    else
      Success(DryRunResults(
        |trace|, ProgramCounters(trace), LineNumbers(trace), SourceLines(trace, lines), RawStacks(trace),
        Deltas(AllSlots(trace)), StepSlots(trace[|trace| - 1]), SlotsUsed(trace)))
  }

  /** The delta loop of `scrape`: the first delta is the full scratch, each later one is computed from its predecessor. */
  method ScratchDeltas(scr2: seq<map<int, TealVal>>) returns (deltas: seq<map<int, TealVal>>)
    ensures deltas == Deltas(scr2)
  {
    if scr2 == [] {
      return [];
    }
    deltas := [scr2[0]];
    var i := 1;
    while i < |scr2|
      invariant 1 <= i <= |scr2|
      invariant |deltas| == i
      invariant forall j :: 0 <= j < i ==> deltas[j] == Deltas(scr2)[j]
    {
      deltas := deltas + [ScratchDelta(scr2[i - 1], scr2[i])];
      i := i + 1;
    }
  }

  /** `DryRunResults.scrape(trace, lines)` as it runs. */
  method Scrape(trace: seq<Step>, lines: seq<string>) returns (r: Result<DryRunResults, PyError>)
    ensures r == ScrapeSpec(trace, lines)
  {
    if !LinesResolve(trace, lines) || trace == [] {
      return Failure(IndexError(LIST_INDEX_OUT_OF_RANGE));
    }
    var scr2 := AllSlots(trace);
    var deltas := ScratchDeltas(scr2);
    r := Success(DryRunResults(
      |trace|, ProgramCounters(trace), LineNumbers(trace), SourceLines(trace, lines), RawStacks(trace),
      deltas, scr2[|trace| - 1], SlotsUsed(trace)));
  }

  /** Every step's stack is listed, so lengths agree: the check `assert_well_defined` makes. */
  predicate WellDefined(r: DryRunResults)
  {
    r.stepsExecuted == |r.programCounters| == |r.tealSourceLines| == |r.rawStacks| == |r.scratchEvolution|
  }

  lemma ScrapeWellDefined(trace: seq<Step>, lines: seq<string>)
    requires ScrapeSpec(trace, lines).Success?
    ensures WellDefined(ScrapeSpec(trace, lines).value)
    ensures ScrapeSpec(trace, lines).value.stepsExecuted == |trace|
  {
  }

  /** The final scratch holds exactly the non-empty slots of the last step, and every used slot is listed. */
  lemma FinalScratchNonEmpty(trace: seq<Step>, lines: seq<string>)
    requires ScrapeSpec(trace, lines).Success?
    ensures var r := ScrapeSpec(trace, lines).value;
      (forall k :: k in r.finalScratchState ==> !IsEmpty(r.finalScratchState[k]))
      && (forall k :: k in r.finalScratchState ==> k in r.slotsUsed)
  {
    var r := ScrapeSpec(trace, lines).value;
    forall k | k in r.finalScratchState ensures k in r.slotsUsed {
      assert k in StepSlots(trace[|trace| - 1]);
      assert exists i :: 0 <= i < |trace| && k in StepSlots(trace[i]);
    }
  }

  /** `max_stack_height()`: ValueError for no steps. */
  function MaxStackHeightOf(stacks: seq<seq<TealVal>>): (r: Result<nat, PyError>)
    ensures r.Success? <==> stacks != []
    ensures r.Success? ==> (forall i :: 0 <= i < |stacks| ==> |stacks[i]| <= r.value)
    ensures r.Success? ==> exists i :: 0 <= i < |stacks| && |stacks[i]| == r.value
  {
    if stacks == [] then Failure(ValueError(MAX_OF_EMPTY))
    else if |stacks| == 1 then Success(|stacks[0]|)
    else
      var rest := MaxStackHeightOf(stacks[1..]).value;
      assert forall i :: 1 <= i < |stacks| ==> stacks[i] == stacks[1..][i - 1];
      if |stacks[0]| >= rest then Success(|stacks[0]|) else Success(rest)
  }

  /** `final_stack_top()`: None for an empty final stack, else its top as string (bytes) or int. */
  function FinalStackTop(r: DryRunResults): (v: Result<PyValue, PyError>)
    ensures v.Success? <==> r.rawStacks != []
    ensures v.Success? ==> (v.value.PyNone? <==> r.rawStacks[|r.rawStacks| - 1] == [])
    ensures v.Success? && r.rawStacks[|r.rawStacks| - 1] != [] ==>
      var s := r.rawStacks[|r.rawStacks| - 1];
      v.value == if s[|s| - 1].isB == Some(true) then PyStr(Str(s[|s| - 1]).value) else PyInt(s[|s| - 1].i)
  {
    if r.rawStacks == [] then Failure(IndexError(LIST_INDEX_OUT_OF_RANGE))
    else
      var finalStack := r.rawStacks[|r.rawStacks| - 1];
      if finalStack == [] then Success(PyNone)
      else
        var top := finalStack[|finalStack| - 1];
        if top.isB == Some(true) then Success(PyStr(Str(top).value)) else Success(PyInt(top.i))
  }

  /** `final_scratch()`: each final slot as its string form (bytes) or its int. */
  function FinalScratchValues(r: DryRunResults): (m: map<int, PyValue>)
    ensures m.Keys == r.finalScratchState.Keys
  {
    map k | k in r.finalScratchState ::
      var tv := r.finalScratchState[k];
      if tv.isB == Some(true) then PyStr(Str(tv).value) else PyInt(tv.i)
  }

  /** Every slot of a scraped final scratch is typed, being read with `from_scratch`. */
  lemma FinalScratchTyped(trace: seq<Step>, lines: seq<string>)
    requires ScrapeSpec(trace, lines).Success?
    ensures var r := ScrapeSpec(trace, lines).value;
      forall k :: k in r.finalScratchState ==> r.finalScratchState[k].isB.Some?
  {
  }

  /** Where every slot is typed, `final_scratch()` agrees with the values `dig(finalScratch)` reports. */
  lemma FinalScratchIsPythonTyped(r: DryRunResults)
    requires forall k :: k in r.finalScratchState ==> r.finalScratchState[k].isB.Some?
    ensures FinalScratchValues(r) == map k | k in r.finalScratchState :: AsPythonType(r.finalScratchState[k])
  {
    var m1 := FinalScratchValues(r);
    var m2 := map k | k in r.finalScratchState :: AsPythonType(r.finalScratchState[k]);
    forall k | k in m1 ensures m1[k] == m2[k] {
      assert r.finalScratchState[k].isB.Some?;
    }
    assert m1.Keys == m2.Keys;
  }

  // ---------------------------------------------------------------------------
  // DryRunInspector: construction
  // ---------------------------------------------------------------------------

  /** `EncodingType`: an ABI type, a type string, or None. */
  datatype EncodingType = NoEncoding | AbiEncoding(abiType: AbiType) | NamedEncoding(name: string)

  /** `bool(abi_type)` */
  predicate EncodingTruthy(e: EncodingType)
  {
    e.AbiEncoding? || (e.NamedEncoding? && e.name != "")
  }

  const AMBIGUOUS_MODE: string := "ambiguous mode for dry run transaction: expected exactly one of 'app-call-trace', 'logic-sig-trace' to be in keyset"

  /** `get_txn_mode(txn)`: exactly one of the two trace keys must be present. */
  function GetTxnMode(txn: Txn): (r: Result<ExecutionMode, PyError>)
    ensures r.Success? <==> (txn.appCallTrace.Some? <==> txn.logicSigTrace.None?)
    ensures r.Success? ==> (r.value == Application <==> txn.appCallTrace.Some?)
    ensures r.Failure? ==> r.error.AssertionError?
  {
    if txn.appCallTrace.Some? == txn.logicSigTrace.Some? then
      Failure(AssertionError(AMBIGUOUS_MODE))
    else if txn.appCallTrace.Some? then Success(Application)
    else Success(Signature)
  }

  /** What `extract_all` collects from a transaction. */
  datatype Extracts = Extracts(
    logs: seq<string>,
    cost: Option<int>,
    status: string,
    messages: seq<string>,
    ldeltas: PyValue,
    gdelta: PyValue,
    lines: seq<string>,
    trace: seq<Step>,
    bbr: DryRunResults)

  /** `extract_logs`: every log as hex; no logs key means no logs. */
  function ExtractLogs(txn: Txn): (r: seq<string>)
    ensures txn.logs.None? ==> r == []
    ensures txn.logs.Some? ==> |r| == |txn.logs.value| && forall i :: 0 <= i < |r| ==> r[i] == Hex(txn.logs.value[i])
  {
    var logs := if txn.logs.Some? then txn.logs.value else [];
    seq(|logs|, i requires 0 <= i < |logs| => Hex(logs[i]))
  }

  /** `extract_cost`: consumed minus added, and None when either counter is missing. */
  function ExtractCost(txn: Txn): (r: Option<int>)
    ensures r.Some? <==> txn.budgetConsumed.Some? && txn.budgetAdded.Some?
    ensures r.Some? ==> r.value + txn.budgetAdded.value == txn.budgetConsumed.value
  {
    if txn.budgetConsumed.None? || txn.budgetAdded.None? then None
    else Some(txn.budgetConsumed.value - txn.budgetAdded.value)
  }

  /** The messages key of a mode. */
  function MessagesOf(txn: Txn, isApp: bool): Option<seq<string>>
  {
    if isApp then txn.appCallMessages else txn.logicSigMessages
  }

  /** `extract_status`: message 1 of an app call, message 0 of a logic sig. */
  function ExtractStatus(txn: Txn, isApp: bool): (r: Result<string, PyError>)
    ensures var idx := if isApp then 1 else 0;
      (MessagesOf(txn, isApp).None? ==> r.Failure? && r.error.KeyError?)
      && (MessagesOf(txn, isApp).Some? ==>
            (r.Success? <==> idx < |MessagesOf(txn, isApp).value|)
            && (r.Success? ==> r.value == MessagesOf(txn, isApp).value[idx])
            && (r.Failure? ==> r.error.IndexError?))
  {
    var key := if isApp then "app-call-messages" else "logic-sig-messages";
    var idx := if isApp then 1 else 0;
    var msgs := MessagesOf(txn, isApp);
    if msgs.None? then Failure(KeyError(key))
    else if idx < |msgs.value| then Success(msgs.value[idx])
    else Failure(IndexError(LIST_INDEX_OUT_OF_RANGE))
  }

  /** `txn.get(key, [])` for the state deltas. */
  function DeltaOrEmpty(v: Option<PyValue>): PyValue
  {
    if v.Some? then v.value else PyList([])
  }

  /** `extract_all`: the extractors in order, the first missing key or index failing, then `scrape`. */
  function ExtractAll(txn: Txn, isApp: bool): (r: Result<Extracts, PyError>)
    ensures ExtractStatus(txn, isApp).Failure? ==> r == Failure(ExtractStatus(txn, isApp).error)
    ensures r.Success? ==>
      var lines := if isApp then txn.disassembly else txn.logicSigDisassembly;
      var trace := if isApp then txn.appCallTrace else txn.logicSigTrace;
      lines.Some? && trace.Some?
      && r.value.trace == trace.value && r.value.lines == lines.value
      && Success(r.value.status) == ExtractStatus(txn, isApp)
      && Some(r.value.messages) == MessagesOf(txn, isApp)
      && r.value.cost == ExtractCost(txn)
      && Success(r.value.bbr) == ScrapeSpec(trace.value, lines.value)
  {
    var logs := ExtractLogs(txn);
    var cost := ExtractCost(txn);
    var status :- ExtractStatus(txn, isApp);
    var messages := MessagesOf(txn, isApp);
    if messages.None? then Failure(KeyError("messages"))
    else
      var ldeltas := DeltaOrEmpty(txn.localDeltas);
      var gdelta := DeltaOrEmpty(txn.globalDelta);
      var lines := if isApp then txn.disassembly else txn.logicSigDisassembly;
      if lines.None? then Failure(KeyError(if isApp then "disassembly" else "logic-sig-disassembly"))
      else
        var trace := if isApp then txn.appCallTrace else txn.logicSigTrace;
        if trace.None? then Failure(KeyError(if isApp then "app-call-trace" else "logic-sig-trace"))
        else
          var bbr :- ScrapeSpec(trace.value, lines.value);
          Success(Extracts(logs, cost, status, messages.value, ldeltas, gdelta, lines.value, trace.value, bbr))
  }

  /** The state `DryRunInspector.__init__` establishes, apart from the configuration. */
  datatype InspectorCore = InspectorCore(
    args: seq<PyValue>,
    encodedArgs: seq<PyValue>,
    mode: ExecutionMode,
    parent: Response,
    txn: Txn,
    extracts: Extracts,
    abiType: EncodingType)

  /** The core describes transaction `txn` of `parent` as `__init__` extracts it. */
  predicate Coherent(core: InspectorCore)
  {
    GetTxnMode(core.txn) == Success(core.mode)
    && ExtractAll(core.txn, core.mode == Application) == Success(core.extracts)
  }

  /** A coherent inspector scraped its own (non-empty) trace and listing. */
  lemma ExtractedScrape(core: InspectorCore)
    requires Coherent(core)
    ensures ScrapeSpec(core.extracts.trace, core.extracts.lines) == Success(core.extracts.bbr)
    ensures core.extracts.trace != [] && core.extracts.bbr.rawStacks == RawStacks(core.extracts.trace)
  {
    var ex := core.extracts;
    assert Success(ex.bbr) == ScrapeSpec(ex.trace, ex.lines);
  }

  /** The status a coherent inspector extracted is the message its mode reads it from. */
  lemma ExtractedStatus(core: InspectorCore)
    requires Coherent(core)
    ensures core.mode == Application ==>
      core.txn.appCallMessages.Some? && 1 < |core.txn.appCallMessages.value|
      && core.extracts.status == core.txn.appCallMessages.value[1]
    ensures core.mode == Signature ==>
      core.txn.logicSigMessages.Some? && 0 < |core.txn.logicSigMessages.value|
      && core.extracts.status == core.txn.logicSigMessages.value[0]
  {
    assert Success(core.extracts.status) == ExtractStatus(core.txn, core.mode == Application);
  }

  /** `dryrun_resp.get("txns", [])` */
  function TxnsOf(resp: Response): seq<Txn>
  {
    if resp.txns.Some? then resp.txns.value else []
  }

  /** `DryRunInspector.__init__`: some transaction, an index in bounds, a mode, then the extracts. */
  function Build(resp: Response, txnIndex: int, args: seq<PyValue>, encodedArgs: seq<PyValue>, abiType: EncodingType)
    : (r: Result<InspectorCore, PyError>)
    ensures TxnsOf(resp) == [] ==> r.Failure? && r.error.AssertionError?
    ensures !(0 <= txnIndex < |TxnsOf(resp)|) ==> r.Failure? && r.error.AssertionError?
    ensures r.Success? ==> 0 <= txnIndex < |TxnsOf(resp)| && r.value.txn == TxnsOf(resp)[txnIndex]
    ensures r.Success? ==> Coherent(r.value) && r.value.parent == resp && r.value.abiType == abiType
    ensures 0 <= txnIndex < |TxnsOf(resp)| && GetTxnMode(TxnsOf(resp)[txnIndex]).Failure? ==>
      r == Failure(GetTxnMode(TxnsOf(resp)[txnIndex]).error)
  {
    var txns := TxnsOf(resp);
    if txns == [] then Failure(AssertionError(NO_TRANSACTIONS))
    else if !(0 <= txnIndex < |txns|) then
      Failure(AssertionError(TXN_INDEX_OUT_OF_BOUNDS + IntToString(txnIndex) + ONLY_TXNS
        + IntToString(|txns|) + TXNS_IN_RESPONSE))
    else
      var txn := txns[txnIndex];
      var mode :- GetTxnMode(txn);
      var extracts :- ExtractAll(txn, mode == Application);
      Success(InspectorCore(args, encodedArgs, mode, resp, txn, extracts, abiType))
  }

  /** `from_single_response`: a document-level error fails first, then exactly one transaction is required. */
  function FromSingleResponse(resp: Response, args: seq<PyValue>, encodedArgs: seq<PyValue>, abiType: EncodingType)
    : (r: Result<InspectorCore, PyError>)
    ensures DryRun.ErrorFound(resp.error) ==>
      r == Failure(AssertionError(RESPONSE_ERROR + resp.error.value + "]"))
    ensures !DryRun.ErrorFound(resp.error) && |TxnsOf(resp)| != 1 ==> r.Failure? && r.error.AssertionError?
    ensures r.Success? ==> |TxnsOf(resp)| == 1 && r.value.txn == TxnsOf(resp)[0] && Coherent(r.value)
    ensures !DryRun.ErrorFound(resp.error) && |TxnsOf(resp)| == 1 ==> r == Build(resp, 0, args, encodedArgs, abiType)
  {
    if DryRun.ErrorFound(resp.error) then
      Failure(AssertionError(RESPONSE_ERROR + resp.error.value + "]"))
    else if |TxnsOf(resp)| != 1 then
      Failure(AssertionError(NOT_SINGLETON
        + IntToString(|TxnsOf(resp)|) + " instead"))
    else Build(resp, 0, args, encodedArgs, abiType)
  }

  /** `abi_params_or_args()`: the arguments without the selector when there is an ABI type. */
  function AbiParamsOrArgs(core: InspectorCore): (r: seq<PyValue>)
    ensures EncodingTruthy(core.abiType) && core.args != [] ==> [core.args[0]] + r == core.args
    ensures !EncodingTruthy(core.abiType) ==> r == core.args
  {
    if EncodingTruthy(core.abiType) then (if core.args == [] then [] else core.args[1..]) else core.args
  }

  // ---------------------------------------------------------------------------
  // DryRunInspector: configuration
  // ---------------------------------------------------------------------------

  datatype ConfigOption = SuppressAbi | HasAbiPrefix | ShowInternalErrorsOnLog

  /** `CONFIG_OPTIONS`, by name. */
  function OptionNamed(key: string): (o: Option<ConfigOption>)
    ensures o == Some(SuppressAbi) <==> key == "suppress_abi"
    ensures o == Some(HasAbiPrefix) <==> key == "has_abi_prefix"
    ensures o == Some(ShowInternalErrorsOnLog) <==> key == "show_internal_errors_on_log"
  {
    if key == "suppress_abi" then Some(SuppressAbi)
    else if key == "has_abi_prefix" then Some(HasAbiPrefix)
    else if key == "show_internal_errors_on_log" then Some(ShowInternalErrorsOnLog)
    else None
  }

  datatype Settings = Settings(suppressAbi: bool, hasAbiPrefix: bool, showInternalErrorsOnLog: bool)

  function Setting(s: Settings, o: ConfigOption): bool
  {
    match o
    case SuppressAbi => s.suppressAbi
    case HasAbiPrefix => s.hasAbiPrefix
    case ShowInternalErrorsOnLog => s.showInternalErrorsOnLog
  }

  function WithSetting(s: Settings, o: ConfigOption, v: bool): (t: Settings)
    ensures Setting(t, o) == v
    ensures forall o' :: o' != o ==> Setting(t, o') == Setting(s, o')
  {
    match o
    case SuppressAbi => s.(suppressAbi := v)
    case HasAbiPrefix => s.(hasAbiPrefix := v)
    case ShowInternalErrorsOnLog => s.(showInternalErrorsOnLog := v)
  }

  predicate AllKnown(kwargs: seq<(string, PyValue)>)
  {
    forall i :: 0 <= i < |kwargs| ==> OptionNamed(kwargs[i].0).Some?
  }

  /** The `setattr` loop of `config`: options in order, stopping at the first non-bool value. */
  function SetAll(s: Settings, kwargs: seq<(string, PyValue)>): (r: (Settings, Result<(), PyError>))
    requires AllKnown(kwargs)
    ensures r.1.Failure? ==> r.1.error.AssertionError?
    decreases |kwargs|
  {
    if kwargs == [] then (s, Success(()))
    else
      var (k, v) := kwargs[0];
      if !v.PyBool? then (s, Failure(AssertionError("configuration " + k + " must be bool")))
      else SetAll(WithSetting(s, OptionNamed(k).value, v.b), kwargs[1..])
  }

  /** `config(**kwargs)`: unknown names are a ValueError before anything changes. */
  function ConfigSpec(s: Settings, kwargs: seq<(string, PyValue)>): (r: (Settings, Result<(), PyError>))
    ensures !AllKnown(kwargs) ==> r.0 == s && r.1.Failure? && r.1.error.ValueError?
    ensures r.1.Failure? && AllKnown(kwargs) ==> r.1.error.AssertionError?
  {
    if !AllKnown(kwargs) then (s, Failure(ValueError(UNKNOWN_CONFIG_OPTIONS)))
    else SetAll(s, kwargs)
  }

  predicate AllBool(kwargs: seq<(string, PyValue)>)
  {
    forall i :: 0 <= i < |kwargs| ==> kwargs[i].1.PyBool?
  }

  /** The last value `kwargs` gives option `o`, if any. */
  function LastGiven(kwargs: seq<(string, PyValue)>, o: ConfigOption): Option<bool>
    requires AllBool(kwargs)
  {
    if kwargs == [] then None
    else if OptionNamed(kwargs[|kwargs| - 1].0) == Some(o) then Some(kwargs[|kwargs| - 1].1.b)
    else LastGiven(kwargs[..|kwargs| - 1], o)
  }

  /**
   * With known names and bool values `config` succeeds, and each option ends up as the last value
   * given for it, or unchanged when it is not named.
   */
  lemma {:induction false} ConfigSetsLastGiven(s: Settings, kwargs: seq<(string, PyValue)>, o: ConfigOption)
    requires AllKnown(kwargs) && AllBool(kwargs)
    ensures ConfigSpec(s, kwargs).1.Success?
    ensures Setting(ConfigSpec(s, kwargs).0, o) ==
      if LastGiven(kwargs, o).Some? then LastGiven(kwargs, o).value else Setting(s, o)
  {
    SetAllSetsLastGiven(s, kwargs, o);
  }

  lemma {:induction false} SetAllSetsLastGiven(s: Settings, kwargs: seq<(string, PyValue)>, o: ConfigOption)
    requires AllKnown(kwargs) && AllBool(kwargs)
    ensures SetAll(s, kwargs).1.Success?
    ensures Setting(SetAll(s, kwargs).0, o) ==
      if LastGiven(kwargs, o).Some? then LastGiven(kwargs, o).value else Setting(s, o)
    decreases |kwargs|
  {
    if kwargs != [] {
      var n := |kwargs|;
      var pre := kwargs[..n - 1];
      assert forall i :: 0 <= i < n - 1 ==> pre[i] == kwargs[i];
      SetAllSetsLastGiven(s, pre, o);
      SetAllSnoc(s, pre, kwargs[n - 1]);
      assert pre + [kwargs[n - 1]] == kwargs;
    }
  }

  /** Running the loop on one more option is one more update. */
  lemma {:induction false} SetAllSnoc(s: Settings, kwargs: seq<(string, PyValue)>, kv: (string, PyValue))
    requires AllKnown(kwargs) && AllBool(kwargs) && OptionNamed(kv.0).Some? && kv.1.PyBool?
    ensures AllKnown(kwargs + [kv]) && AllBool(kwargs + [kv]) && SetAll(s, kwargs).1.Success?
    ensures SetAll(s, kwargs + [kv]) == (WithSetting(SetAll(s, kwargs).0, OptionNamed(kv.0).value, kv.1.b), Success(()))
    decreases |kwargs|
  {
    assert forall i :: 0 <= i < |kwargs| ==> (kwargs + [kv])[i] == kwargs[i];
    assert (kwargs + [kv])[|kwargs|] == kv;
    if kwargs == [] {
      assert [kv][1..] == [];
    } else {
      var rest := kwargs[1..];
      assert (kwargs + [kv])[1..] == rest + [kv];
      assert forall i :: 0 <= i < |rest| + 1 ==> (rest + [kv])[i] == (kwargs + [kv])[i + 1];
      SetAllSnoc(WithSetting(s, OptionNamed(kwargs[0].0).value, kwargs[0].1.b), rest, kv);
    }
  }

  // ---------------------------------------------------------------------------
  // DryRunInspector: dig
  // ---------------------------------------------------------------------------

  /**
   * `dig(stackTop)` as written: the top of the last step's stack read with `from_scratch`, so an
   * empty byte string is typed by its length and reported as the int 0.
   */
  function DigStackTopAsWritten(trace: seq<Step>): (r: Result<PyValue, PyError>)
    ensures r.Success? <==> trace != []
    ensures r.Success? ==> (r.value.PyNone? <==> trace[|trace| - 1].stack == [])
    ensures r.Success? && trace[|trace| - 1].stack != [] ==>
      var stack := trace[|trace| - 1].stack; var e := stack[|stack| - 1];
      r.value == if e.bytes != [] then PyStr("0x" + Hex(e.bytes)) else PyInt(e.uint)
  {
    if trace == [] then Failure(IndexError(LIST_INDEX_OUT_OF_RANGE))
    else
      var stack := trace[|trace| - 1].stack;
      if stack == [] then Success(PyNone)
      else Success(AsPythonType(FromScratch(stack[|stack| - 1])))
  }

  /** A bytes-typed empty top of stack is reported as 0 rather than as the empty byte string. */
  lemma EmptyBytesTopReadsAsZero()
    ensures var trace := [Step(0, 1, [StackEntry(0, [], 1)], None, None)];
      DigStackTopAsWritten(trace) == Success(PyInt(0))
      && FinalStackTop(ScrapeSpec(trace, ["pushbytes 0x"]).value) == Success(PyStr("0x"))
  {
    var trace := [Step(0, 1, [StackEntry(0, [], 1)], None, None)];
    var r := ScrapeSpec(trace, ["pushbytes 0x"]).value;
    assert r.rawStacks[0] == RawStack(trace[0]);
    assert RawStack(trace[0])[0] == FromStack(StackEntry(0, [], 1));
    assert Hex([]) == "";
    var tv := FromStack(StackEntry(0, [], 1));
    assert tv.b == [] && tv.isB == Some(true) && !tv.hideEmpty;
    assert "0x" + Hex(tv.b) == "0x";
  }

  /** `dig(maxStackHeight)`: the height of the tallest stack over the trace's steps. */
  function DigMaxStackHeight(trace: seq<Step>): (r: Result<PyValue, PyError>)
    ensures r.Success? <==> trace != []
    ensures r.Success? ==>
      r.value.PyInt?
      && (forall i :: 0 <= i < |trace| ==> |trace[i].stack| <= r.value.i)
      && (exists i :: 0 <= i < |trace| && |trace[i].stack| == r.value.i)
  {
    var h :- MaxStackHeightOf(RawStacks(trace));
    Success(PyInt(h))
  }

  /** The stack top read the way `final_stack_top` reads it: the stack entry's own type decides. */
  function DigStackTop(trace: seq<Step>): (r: Result<PyValue, PyError>)
    ensures r.Success? <==> trace != []
    ensures r.Success? ==> (r.value.PyNone? <==> trace[|trace| - 1].stack == [])
  {
    if trace == [] then Failure(IndexError(LIST_INDEX_OUT_OF_RANGE))
    else
      var stack := trace[|trace| - 1].stack;
      if stack == [] then Success(PyNone)
      else
        var top := FromStack(stack[|stack| - 1]);
        if top.isB == Some(true) then Success(PyStr(Str(top).value)) else Success(PyInt(top.i))
  }

  /** On every trace that scrapes, the stack top `dig` reports is `final_stack_top()` of the scrape. */
  lemma DigStackTopIsFinalStackTop(trace: seq<Step>, lines: seq<string>)
    requires ScrapeSpec(trace, lines).Success?
    ensures DigStackTop(trace) == FinalStackTop(ScrapeSpec(trace, lines).value)
  {
    var r := ScrapeSpec(trace, lines).value;
    assert r.rawStacks[|trace| - 1] == RawStack(trace[|trace| - 1]);
  }

  /** Read by its type field, a bytes top is "0x" and its hex, an int top its value. */
  lemma DigStackTopValue(trace: seq<Step>)
    requires trace != [] && trace[|trace| - 1].stack != []
    ensures var stack := trace[|trace| - 1].stack; var e := stack[|stack| - 1];
      DigStackTop(trace) == Success(if e.typ == 1 then PyStr("0x" + Hex(e.bytes)) else PyInt(e.uint))
  {
  }
  /** The top of the last step's stack, if any, is typed bytes exactly when its bytes are non-empty. */
  predicate TopTypedByBytes(trace: seq<Step>)
  {
    trace != [] && trace[|trace| - 1].stack != [] ==>
      var stack := trace[|trace| - 1].stack;
      (stack[|stack| - 1].typ == 1 <==> stack[|stack| - 1].bytes != [])
  }

  /** `dig(stackTop)` as written and the `final_stack_top` reading agree exactly on such traces. */
  lemma StackTopReadingsAgree(trace: seq<Step>)
    ensures DigStackTopAsWritten(trace) == DigStackTop(trace) <==> TopTypedByBytes(trace)
  {
    if trace != [] && trace[|trace| - 1].stack != [] {
      DigStackTopValue(trace);
    }
  }


  const UNKNOWN_ASSERT_TYPE: string := "Unknown assert_type"
  const NO_DECODE_ON_STR: string := "'str' object has no attribute 'decode'"

  /** The decoding step of `dig(lastLog)`: a failure is its message when internal errors are shown, else raised. */
  function DecodeLog(abiType: EncodingType, bs: seq<byte>, decoder: (AbiType, seq<byte>) -> Result<PyValue, string>,
                     showInternal: bool): (r: Result<PyValue, PyError>)
    requires EncodingTruthy(abiType)
    ensures showInternal ==> r.Success?
    ensures abiType.AbiEncoding? && decoder(abiType.abiType, bs).Success? ==> r == Success(decoder(abiType.abiType, bs).value)
  {
    var decoded := if abiType.AbiEncoding? then decoder(abiType.abiType, bs) else Failure(NO_DECODE_ON_STR);
    if decoded.Success? then Success(decoded.value)
    else if showInternal then Success(PyStr(decoded.error))
    else Failure(Exception(decoded.error))
  }

  class DryRunInspector {
    const core: InspectorCore
    /** `abi_type.decode`, a call into the ABI library. */
    const decoder: (AbiType, seq<byte>) -> Result<PyValue, string>
    var suppressAbi: bool
    var hasAbiPrefix: bool
    var showInternalErrorsOnLog: bool

    function CurrentSettings(): Settings
      reads this
    {
      Settings(suppressAbi, hasAbiPrefix, showInternalErrorsOnLog)
    }

    /** The end of `__init__`: `config(suppress_abi=False, has_abi_prefix=bool(abi_type), show_internal_errors_on_log=True)`. */
    constructor(core: InspectorCore, decoder: (AbiType, seq<byte>) -> Result<PyValue, string>)
      ensures this.core == core && this.decoder == decoder
      ensures CurrentSettings() == Settings(false, EncodingTruthy(core.abiType), true)
    {
      this.core := core;
      this.decoder := decoder;
      suppressAbi := false;
      hasAbiPrefix := EncodingTruthy(core.abiType);
      showInternalErrorsOnLog := true;
    }

    /** `config(**kwargs)` */
    method Config(kwargs: seq<(string, PyValue)>) returns (r: Result<(), PyError>)
      modifies this
      ensures (CurrentSettings(), r) == ConfigSpec(old(CurrentSettings()), kwargs)
    {
      var i := 0;
      while i < |kwargs|
        invariant 0 <= i <= |kwargs|
        invariant forall j :: 0 <= j < i ==> OptionNamed(kwargs[j].0).Some?
      {
        if OptionNamed(kwargs[i].0).None? {
          return Failure(ValueError(UNKNOWN_CONFIG_OPTIONS));
        }
        i := i + 1;
      }
      ghost var start := CurrentSettings();
      i := 0;
      while i < |kwargs|
        invariant 0 <= i <= |kwargs|
        invariant SetAll(start, kwargs) == SetAll(CurrentSettings(), kwargs[i..])
      {
        var (k, v) := kwargs[i];
        if !v.PyBool? {
          return Failure(AssertionError("configuration " + k + " must be bool"));
        }
        match OptionNamed(k).value {
          case SuppressAbi => suppressAbi := v.b;
          case HasAbiPrefix => hasAbiPrefix := v.b;
          case ShowInternalErrorsOnLog => showInternalErrorsOnLog := v.b;
        }
        assert kwargs[i..][1..] == kwargs[i + 1..];
        i := i + 1;
      }
      return Success(());
    }

    /** `dig(lastLog)` */
    function DigLastLog(): (r: Result<PyValue, PyError>)
      reads this
      ensures core.txn.logs.None? ==> r == Success(PyNone)
      ensures core.txn.logs == Some([]) ==> r.Failure? && r.error.IndexError?
      ensures core.txn.logs.Some? && core.txn.logs.value != [] && (!EncodingTruthy(core.abiType) || suppressAbi) ==>
        r == Success(PyStr(Hex(core.txn.logs.value[|core.txn.logs.value| - 1])))
      ensures showInternalErrorsOnLog ==> (r.Success? <==> core.txn.logs != Some([]))
    {
      var logs := core.txn.logs;
      if logs.None? then Success(PyNone)
      else if logs.value == [] then Failure(IndexError(LIST_INDEX_OUT_OF_RANGE))
      else
        var last := logs.value[|logs.value| - 1];
        if !EncodingTruthy(core.abiType) || suppressAbi then Success(PyStr(Hex(last)))
        else
          var bs := if hasAbiPrefix then (if |last| <= 4 then [] else last[4..]) else last;
          DecodeLog(core.abiType, bs, decoder, showInternalErrorsOnLog)
    }

    /** `dig(dr_property, contains=...)`: the property router. */
    function Dig(p: DryRunProperty, contains: Option<string>): (r: Result<PyValue, PyError>)
      reads this
      ensures !ModeHasProperty(core.mode, p) ==> r.Failure? && r.error.AssertionError?
      ensures ModeHasProperty(core.mode, p) && p.Cost? ==>
        (r.Success? <==> ExtractCost(core.txn).Some?)
        && (r.Success? ==> r.value == PyInt(ExtractCost(core.txn).value))
      ensures ModeHasProperty(core.mode, p) && (p.Status? || p.Passed? || p.Rejected? || p.FinalScratch?) ==> r.Success?
      ensures ModeHasProperty(core.mode, p) && (p.GlobalStateHas? || p.LocalStateHas?) ==>
        r == Failure(Exception(UNKNOWN_ASSERT_TYPE))
      ensures p.Error? ==>
        (r.Success? <==> DryRun.FirstError(core.parent, None).Success?)
        && (r.Success? ==> r.value.PyBool?)
        && (r.Success? ==>
              (r.value.b <==>
                 DryRun.ErrorFound(DryRun.FirstError(core.parent, None).value)
                 && (contains.Some? ==> IsSubstring(contains.value, DryRun.FirstError(core.parent, None).value.value))))
      ensures p.ErrorMessage? ==>
        (r.Success? <==> DryRun.FirstError(core.parent, None).Success?)
        && (r.Success? ==> (r.value.PyNone? <==> !DryRun.ErrorFound(DryRun.FirstError(core.parent, None).value)))
    {
      var txn := core.txn;
      var ex := core.extracts;
      if !ModeHasProperty(core.mode, p) then
        Failure(AssertionError(CANNOT_DIG))
      else
        match p
        case Cost =>
          if txn.budgetConsumed.None? then Failure(KeyError("budget-consumed"))
          else if txn.budgetAdded.None? then Failure(KeyError("budget-added"))
          else Success(PyInt(txn.budgetConsumed.value - txn.budgetAdded.value))
        case BudgetAdded =>
          if txn.budgetAdded.None? then Failure(KeyError("budget-added")) else Success(PyInt(txn.budgetAdded.value))
        case BudgetConsumed =>
          if txn.budgetConsumed.None? then Failure(KeyError("budget-consumed")) else Success(PyInt(txn.budgetConsumed.value))
        case LastLog => DigLastLog()
        case FinalScratch =>
          Success(PyDict(map k | k in ex.bbr.finalScratchState :: AsPythonType(ex.bbr.finalScratchState[k])))
        case StackTop => DigStackTopAsWritten(ex.trace)
        case MaxStackHeight => DigMaxStackHeight(ex.trace)
        case Status => Success(PyStr(ex.status))
        case Passed => Success(PyBool(ex.status == "PASS"))
        case Rejected => Success(PyBool(ex.status == "REJECT"))
        case Error =>
          var res :- DryRun.AssertError(core.parent, contains, None, None, false);
          Success(PyBool(res.0))
        case ErrorMessage =>
          var res :- DryRun.AssertNoError(core.parent, None, None, false);
          if res.1.Some? && res.1.value != "" then Success(PyStr(res.1.value)) else Success(PyNone)
        case LastMessage =>
          if ex.messages == [] then Success(PyNone) else Success(PyStr(ex.messages[|ex.messages| - 1]))
        case GlobalStateHas => Failure(Exception(UNKNOWN_ASSERT_TYPE))
        case LocalStateHas => Failure(Exception(UNKNOWN_ASSERT_TYPE))
    }

    /** `passed` and `rejected` are the status compared with "PASS" and "REJECT", so they never both hold. */
    lemma PassedRejectedFromStatus()
      ensures Dig(Status, None) == Success(PyStr(core.extracts.status))
      ensures Dig(Passed, None) == Success(PyBool(Dig(Status, None).value == PyStr("PASS")))
      ensures Dig(Rejected, None) == Success(PyBool(Dig(Status, None).value == PyStr("REJECT")))
      ensures !(Dig(Passed, None) == Success(PyBool(true)) && Dig(Rejected, None) == Success(PyBool(true)))
    {
    }

    /** The status an inspector reports is message 1 of an app call and message 0 of a logic sig. */
    lemma StatusIsModeMessage()
      requires Coherent(core)
      ensures core.mode == Application ==> Dig(Status, None) == Success(PyStr(core.txn.appCallMessages.value[1]))
      ensures core.mode == Signature ==> Dig(Status, None) == Success(PyStr(core.txn.logicSigMessages.value[0]))
    {
      PassedRejectedFromStatus();
      ExtractedStatus(core);
    }

    /** For an app, `dig(cost)` is the net budget `extract_cost` reports (e.g. 13 consumed, 700 added: -687). */
    lemma CostIsExtractedCost()
      requires Coherent(core) && core.mode == Application
      ensures core.extracts.cost.Some? ==> Dig(Cost, None) == Success(PyInt(core.extracts.cost.value))
      ensures core.extracts.cost.None? ==> Dig(Cost, None).Failure? && Dig(Cost, None).error.KeyError?
    {
    }

    /** When the top is typed by its bytes, the stack top `dig` reports is `final_stack_top()` of the scrape. */
    lemma DigStackTopAgrees()
      requires Coherent(core) && TopTypedByBytes(core.extracts.trace)
      ensures Dig(StackTop, None) == FinalStackTop(core.extracts.bbr)
    {
      ExtractedScrape(core);
      StackTopReadingsAgree(core.extracts.trace);
      DigStackTopIsFinalStackTop(core.extracts.trace, core.extracts.lines);
      DigIsStackTop();
    }

    /** Every mode answers `dig(stackTop)`, from the extracted trace with `from_scratch`. */
    lemma DigIsStackTop()
      ensures Dig(StackTop, None) == DigStackTopAsWritten(core.extracts.trace)
    {
      assert ModeHasProperty(core.mode, StackTop);
    }

    /** The maximum stack height `dig` reports is `max_stack_height()` of the scrape. */
    lemma DigMaxStackHeightAgrees()
      requires Coherent(core)
      ensures Dig(MaxStackHeight, None) == Success(PyInt(MaxStackHeightOf(core.extracts.bbr.rawStacks).value))
    {
      var ex := core.extracts;
      ExtractedScrape(core);
      var h := MaxStackHeightOf(RawStacks(ex.trace));
      assert DigMaxStackHeight(ex.trace) == Success(PyInt(h.value));
      DigIsMaxStackHeight();
    }

    /** Every mode answers `dig(maxStackHeight)`, from the extracted trace. */
    lemma DigIsMaxStackHeight()
      ensures Dig(MaxStackHeight, None) == DigMaxStackHeight(core.extracts.trace)
    {
      assert ModeHasProperty(core.mode, MaxStackHeight);
    }

    /** The final scratch `dig` reports is `final_scratch()` of the scrape. */
    lemma DigFinalScratchAgrees()
      requires Coherent(core)
      ensures Dig(FinalScratch, None) == Success(PyDict(FinalScratchValues(core.extracts.bbr)))
    {
      FinalScratchTyped(core.extracts.trace, core.extracts.lines);
      FinalScratchIsPythonTyped(core.extracts.bbr);
    }
  }
}

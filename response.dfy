/**
 * The parts of an algod dry-run response the harness reads. Byte strings arrive base64
 * encoded; here they are already decoded. An absent JSON key is `None`.
 */
module DryRunResponse {
  import opened Wrappers
  import opened PyModel

  /** A stack or scratch entry: `{"uint": .., "bytes": .., "type": ..}` (type 1 is bytes). */
  datatype StackEntry = StackEntry(uint: int, bytes: seq<byte>, typ: int)

  /** One trace step; `error` is present only on the failing step. */
  datatype Step = Step(
    pc: int,
    line: int,
    stack: seq<StackEntry>,
    scratch: Option<seq<StackEntry>>,
    error: Option<string>)

  /** A trace entry once the messages are appended: a structured step, or a bare message string. */
  datatype TraceItem = Record(step: Step) | Bare(text: string)

  /** One transaction result. */
  datatype Txn = Txn(
    appCallTrace: Option<seq<Step>>,
    logicSigTrace: Option<seq<Step>>,
    appCallMessages: Option<seq<string>>,
    logicSigMessages: Option<seq<string>>,
    disassembly: Option<seq<string>>,
    logicSigDisassembly: Option<seq<string>>,
    logs: Option<seq<seq<byte>>>,
    budgetConsumed: Option<int>,
    budgetAdded: Option<int>,
    globalDelta: Option<PyValue>,
    localDeltas: Option<PyValue>)

  /** The whole response: a document-level error and the list of transactions (None if absent or not a list). */
  datatype Response = Response(error: Option<string>, txns: Option<seq<Txn>>)

  function Records(steps: seq<Step>): (r: seq<TraceItem>)
    ensures |r| == |steps| && forall i :: 0 <= i < |steps| ==> r[i] == Record(steps[i])
  {
    seq(|steps|, i requires 0 <= i < |steps| => Record(steps[i]))
  }

  function Bares(msgs: seq<string>): (r: seq<TraceItem>)
    ensures |r| == |msgs| && forall i :: 0 <= i < |msgs| ==> r[i] == Bare(msgs[i])
  {
    seq(|msgs|, i requires 0 <= i < |msgs| => Bare(msgs[i]))
  }
}

# graviton core, modelled in Dafny

graviton is a black-box testing harness for TEAL programs on Algorand. It has four parts:

- It generates argument tuples for a program, either at random from ABI types or by perturbing a method's selector and arguments.
- It encodes those arguments the way an application call expects them.
- It runs them through an algod dry run.
- It reads each transaction's dry-run result into a `DryRunInspector`. That object answers questions about a single run: cost, status, stack top, final scratch, last log, error and so on. These questions are the `DryRunProperty` values.

Test authors state the expected behaviour as invariants, one predicate per property. The harness checks each invariant against every inspector, and in identity mode against a second, reference inspector.

The model covers these pieces:

- **Models**: run-mode selection and the `App` parameter record with its `factory`.
- **DryRun**:
  - the error scan over a dry-run response (`find_error`), including the back-track from a bare message to the preceding trace line;
  - the error and no-error assertions;
  - the default filling of transaction parameters.
- **AbiStrategy**:
  - random generation of ABI values, with randomness supplied as an oracle;
  - the `HalfSized` variant;
  - `mutate_for_roundtrip` and its dispatch through `map`;
  - the seeding flag.
- **AbiArgsStrategy**: argument generation for a contract method, including the selector and argument mutation modes (`ABIArgsMod`).
- **Ace**: the contract executor's input generation, its input validation and its choice of inputs.
- **Blackbox**:
  - the dry-run argument encoder, including the uint64-and-utf8 convention and the jamming of arguments beyond the 16th into one tuple;
  - `DryRunTransactionParams` as a class with in-place field updates;
  - the contract executor's ABI adapter and preparation steps.
- **Inspector**:
  - execution-mode availability of properties;
  - `TealVal`;
  - the scrape of a trace into `DryRunResults`;
  - construction of the inspector and its configuration;
  - `dig` over every property.
- **Invariants**: the current invariant module. It covers predicate kinds, `__call__`, `expected`, `validates` (with identity mode), `as_invariants`, `full_validation` and `inputs_and_invariants`.
- **LegacyInvariants**: the older `blackbox/invariant.py`. It covers the constructor, `__call__`, `validates` and `inputs_and_invariants`.

The dry-run response, the ABI codec, method-signature parsing and the random module are not part of the model. Each is either a parameter (a function value or an oracle `nat -> nat`) or an abstract descriptor.

## Model

| member | source | states |
|---|---|---|
| Models.GetRunMode | graviton/models.py:23-30 | "lsig" exactly when no app is given; "clearp" exactly when on_complete is ClearState; "approv" otherwise |
| Models.RunModeDictObjectAgree | graviton/models.py:26-29 | a dict app and an object app with the same on_complete get the same run mode |
| Models.FieldNamed | graviton/models.py:44-50 | a key names a field only when it is that field's attribute name |
| Models.FieldNamesRoundTrip | graviton/models.py:44-50 | every App field is found back from its own attribute name |
| Models.FactoryValue | graviton/models.py:53-58 | a field that no keyword sets to a non-None value keeps its dataclass default |
| Models.App.Factory | graviton/models.py:53-58 | every field of the new App is the value the keyword arguments give it |
| Models.App.constructor | graviton/models.py:44-50 | a new App has every field at its default |
| Models.App.Set | graviton/models.py:57 | setattr changes the named field and leaves every other field as it was |
| DryRun.ScannedTrace | graviton/dryrun.py:300-314 | the app-call trace is scanned when present, else the logic-sig trace; a transaction with neither is skipped |
| DryRun.NearestRecordBefore | graviton/dryrun.py:325-333 | the back-track finds the closest trace record before a bare message, or reports that only bare messages precede it |
| DryRun.FirstError | graviton/dryrun.py:282-334 | a document-level error wins; an out-of-range txn_index is reported as an error message |
| DryRun.FindError | graviton/dryrun.py:282-334 | the scanning loop returns exactly FirstError |
| DryRun.ScanTrace | graviton/dryrun.py:316-334 | the scan of one trace returns exactly its first error, with a bare message attributed to the preceding step's line |
| DryRun.TraceErrorNoneIff | graviton/dryrun.py:316-334 | a trace yields no error exactly when no entry carries one |
| DryRun.TraceErrorIsFirst | graviton/dryrun.py:316-334 | the error reported is the one at the first failing entry |
| DryRun.BareErrorTakesPrecedingLine | graviton/dryrun.py:325-333 | an error on a bare message is located at the nearest earlier trace line; with no such line the scan fails with an AssertionError |
| DryRun.TxnsErrorNoneIff | graviton/dryrun.py:292-334 | no error is found exactly when no scanned trace of a selected transaction carries one |
| DryRun.OnlyIndexedTxnScanned | graviton/dryrun.py:298-299 | with a txn_index only that transaction's trace is scanned |
| DryRun.SkipAfter | graviton/dryrun.py:298-299 | transactions after the indexed one contribute nothing |
| DryRun.AssertIn | graviton/dryrun.py:29-37 | the verdict is true exactly when the status is a substring of the messages; a message is produced exactly on a false verdict; enforce raises exactly on a false verdict |
| DryRun.AssertError | graviton/dryrun.py:40-52 | true exactly when an error was found and, when contains is given, it contains that text; a message exactly when false; never raises when not enforced |
| DryRun.AssertNoError | graviton/dryrun.py:55-64 | true exactly when no error was found; otherwise the message joins the caller's text and the error; never raises when not enforced |
| DryRun.Defaults | graviton/dryrun.py:97-136 | the defaults always supply a sender and suggested params |
| DryRun.SetIfMissing | graviton/dryrun.py:118-135 | the new dict has the old keys plus the key; old values are kept and a missing key gets the value |
| DryRun.FillFour | graviton/dryrun.py:116-136 | four fill steps keep every caller key and value and add each missing default key with its default |
| DryRun.TxnParamsWithDefaults | graviton/dryrun.py:97-136 | the result has the caller's keys plus the default keys; caller values win and defaults fill only the missing keys |
| AbiStrategy.GeneratedConforms | graviton/abi_strategy.py:63-117 | every generated value conforms to its ABI type (bit widths, byte ranges, lengths, address size, string alphabet) |
| AbiStrategy.Gen | graviton/abi_strategy.py:63-117 | generation succeeds exactly for generable types; an unknown type raises ValueError |
| AbiStrategy.GenList | graviton/abi_strategy.py:78-82 | a tuple has one generated value per child type, each generated for that child |
| AbiStrategy.GenRepeat | graviton/abi_strategy.py:84-88 | a static array has exactly its length of generated children |
| AbiStrategy.GenChars | graviton/abi_strategy.py:114-115 | a string has the drawn length and only characters from STRING_CHARS |
| AbiStrategy.HalfSizedGen | graviton/abi_strategy.py:200-206 | for a uint type the value is the full draw reduced below 2^(bits/2); other types are unchanged |
| AbiStrategy.Get | graviton/abi_strategy.py:63-117 | get succeeds exactly for generable types and its value conforms to the type |
| AbiStrategy.HalvedConforms | graviton/abi_strategy.py:200-206 | the halved uint still conforms to the original type |
| AbiStrategy.GetMany | graviton/abi_strategy.py:26-27 | n draws, each conforming to the type |
| AbiStrategy.RandomSeeding.constructor | graviton/abi_strategy.py:37-49 | a new strategy class starts unseeded |
| AbiStrategy.RandomSeeding.SeedRandomness | graviton/abi_strategy.py:37-49 | the first call seeds and records the seed; later calls change nothing |
| AbiStrategy.Reverse | graviton/abi_strategy.py:184 | a string is mutated by reversing it |
| AbiStrategy.ReverseReverse | graviton/abi_strategy.py:184 | reversing twice restores the string |
| AbiStrategy.FlipBytes | graviton/abi_strategy.py:137-145 | an address is mutated byte-wise and keeps its length |
| AbiStrategy.FlipBytesInvolution | graviton/abi_strategy.py:137-145 | mutating an address twice restores it |
| AbiStrategy.MutateInvolution | graviton/abi_strategy.py:147-187 | for every conforming value and either dispatch of foreign types, mutation succeeds, stays conforming and undoes itself |
| AbiStrategy.MutateZipInvolution | graviton/abi_strategy.py:158-164 | the tuple case mutates child by child and undoes itself |
| AbiStrategy.MutateEachInvolution | graviton/abi_strategy.py:165-183 | the array cases mutate element by element and undo themselves |
| AbiStrategy.GeneratedMutateRoundTrip | graviton/abi_strategy.py:130-189 | mutate_for_roundtrip applied twice to a generated value gives the value back |
| AbiStrategy.MutateDispatchesAgree | graviton/abi_strategy.py:119-189 | for a type with no foreign part at any depth, mutation through `map` as written and through the corrected `map` give the same result |
| AbiStrategy.MutateZipDispatchesAgree | graviton/abi_strategy.py:158-164 | the same agreement child by child for the tuple case |
| AbiStrategy.MutateEachDispatchesAgree | graviton/abi_strategy.py:165-183 | the same agreement element by element for the array cases |
| AbiStrategy.FirstStop | graviton/abi_strategy.py:125-127 | the waterfall scan stops at the first key whose isinstance test the value's type meets, treating "DEFAULT" as a key the scan reaches |
| AbiStrategy.FirstTypeMatch | graviton/abi_strategy.py:125-127 | the first type key that matches, looking past "DEFAULT" |
| AbiStrategy.DefaultEntry | graviton/abi_strategy.py:128 | locates the "DEFAULT" entry |
| AbiStrategy.FirstStopAt | graviton/abi_strategy.py:125-127 | characterises where the as-written scan stops |
| AbiStrategy.FirstTypeMatchAt | graviton/abi_strategy.py:125-127 | characterises where the corrected scan stops |
| AbiStrategy.MapAsWritten | graviton/abi_strategy.py:119-128 | the loop as written computes its specification, including the isinstance TypeError on the "DEFAULT" key |
| AbiStrategy.Map | graviton/abi_strategy.py:119-128 | the corrected loop computes its specification: first matching type, else the "DEFAULT" handler |
| AbiStrategy.MutateWaterfall | graviton/abi_strategy.py:147-187 | ten entries in source order, the last being "DEFAULT"; the byte, tuple and array entries mutate their parts through the same dispatch, as the source calls `mutate_for_roundtrip` on each part |
| AbiStrategy.MapDispatchesMutate | graviton/abi_strategy.py:147-189 | the corrected map over the mutation waterfall, used at every level, is exactly the corrected per-type mutation |
| AbiStrategy.MapAsWrittenDispatchesMutate | graviton/abi_strategy.py:119-189 | `map` as written over the mutation waterfall, used at every level, is exactly the as-written per-type mutation, for every type |
| AbiStrategy.MutateSlot | graviton/abi_strategy.py:147-187 | every type has an entry of the mutation table |
| AbiStrategy.MutateSlotHandles | graviton/abi_strategy.py:147-187 | the handler at a known type's own entry mutates exactly as the per-type mutation does; the "DEFAULT" handler gives the corrected ValueError |
| AbiStrategy.MapSelectsMutateSlot | graviton/abi_strategy.py:119-128 | the corrected dispatch over the mutation table picks the type's own entry, the "DEFAULT" one for a foreign type |
| AbiStrategy.MapAsWrittenAgreesOnKnownTypes | graviton/abi_strategy.py:119-189 | for every ABI type with no foreign part at any depth, the as-written map agrees with the corrected mutation |
| AbiStrategy.UnknownTypeHitsDefaultKey | graviton/abi_strategy.py:125-128 | for an unknown type the as-written map raises TypeError, where the intended ValueError is given by unexpected_type |
| AbiStrategy.ForeignChildHitsDefaultKey | graviton/abi_strategy.py:158-164 | a tuple with a foreign child, mutated as written, raises the TypeError from the child's own table, where the corrected dispatch gives the ValueError |
| AbiStrategy.MutateForRoundtrip | graviton/abi_strategy.py:130-189 | the method dispatches through `map` as written at every level: for a type with no foreign part it is the corrected per-type mutation, and a foreign ABIType subclass raises the TypeError of `isinstance` |
| AbiArgsStrategy.NewArgsStrategy | graviton/abi_args_strategy.py:27-62 | the defaults are a random argument strategy, one dry run, selector handling on and no mutation |
| AbiArgsStrategy.MethodSignature | graviton/abi_args_strategy.py:64-69 | no method name gives None; otherwise the signature of the one method with that name, or the lookup error |
| AbiArgsStrategy.ArgumentTypes | graviton/abi_args_strategy.py:71-81 | no method name gives no types; otherwise that method's argument types, or the lookup error |
| AbiArgsStrategy.NumArgsIsZero | graviton/abi_args_strategy.py:83-84 | num_args is zero whatever the strategy |
| AbiArgsStrategy.InsertByte | graviton/abi_args_strategy.py:127 | inserting a byte lengthens the selector by one at the given index |
| AbiArgsStrategy.DeleteByte | graviton/abi_args_strategy.py:129 | deleting removes the byte before the index, with Python's wrap from index 0 to the last byte |
| AbiArgsStrategy.ReplaceByte | graviton/abi_args_strategy.py:134-139 | replacing bumps exactly the chosen byte mod 256 and keeps the rest; an out-of-range index fails |
| AbiArgsStrategy.DeleteUndoesInsert | graviton/abi_args_strategy.py:127-129 | deleting right after the inserted byte restores the selector |
| AbiArgsStrategy.SelectorModsChangeSelector | graviton/abi_args_strategy.py:118-140 | every selector mutation yields a selector different from the original |
| AbiArgsStrategy.SelectorMod | graviton/abi_args_strategy.py:118-140 | without a selector to modify the prefix is unchanged. Otherwise insert puts one byte at a point in 0..4 (one byte longer), delete removes one at a point in 0..4 (one byte shorter), replace bumps the byte at a point in 0..3 (same length, succeeding on selectors of at least 4 bytes), any other action is an AssertionError, and a non-empty selector is always altered |
| AbiArgsStrategy.ArgsMod | graviton/abi_args_strategy.py:142-150 | delete drops the last argument; append adds one conforming argument; other modes leave the arguments alone |
| AbiArgsStrategy.GenValues | graviton/abi_args_strategy.py:152-158 | one conforming value per argument type |
| AbiArgsStrategy.SelectorValues | graviton/abi_args_strategy.py:103-105 | the selector prefix becomes byte values in order |
| AbiArgsStrategy.GenArgs | graviton/abi_args_strategy.py:107-158 | one run has the (possibly modified) prefix followed by arguments of the run shape the mode demands |
| AbiArgsStrategy.TupleShape | graviton/abi_args_strategy.py:107-158 | a possibly modified prefix and conforming values, put through the argument mutation, give a run of the shape the mode demands |
| AbiArgsStrategy.ArgsModAgrees | graviton/abi_args_strategy.py:142-150 | the argument mutation keeps every position it neither drops nor adds |
| AbiArgsStrategy.GenRuns | graviton/abi_args_strategy.py:160 | n runs, each of that shape |
| AbiArgsStrategy.Prefix | graviton/abi_args_strategy.py:103-105 | the prefix is the method's selector when selectors are handled and a method is named, else empty |
| AbiArgsStrategy.EmptyRuns | graviton/abi_args_strategy.py:97-99 | a bare call yields num_dryruns empty argument tuples |
| AbiArgsStrategy.Generate | graviton/abi_args_strategy.py:86-160 | no strategy is an AssertionError; a selector mutation without a selector fails; otherwise num_dryruns runs of the right shape |
| Ace.GenerateInputs | graviton/ace.py:69-98 | no strategy is an AssertionError; each generated run starts with the selector when it is handled and has the argument shape |
| Ace.InputProblemIffIllFormed | graviton/ace.py:113-123 | a run is reported exactly when it is ill-formed (wrong selector or argument count) |
| Ace.FirstOffendingIsLeast | graviton/ace.py:113-123 | the reported run is the first ill-formed one, with its own problem |
| Ace.ValidateInputs | graviton/ace.py:100-125 | the validation loop computes its specification |
| Ace.ValidationAcceptsExactly | graviton/ace.py:100-125 | validation passes exactly when every run is well-formed |
| Ace.GeneratedInputsValidate | graviton/ace.py:69-125 | inputs the executor generates always pass its own validation |
| Ace.SelectInputs | graviton/ace.py:145-149 | given inputs are used (validated when asked); otherwise the generated inputs or the generation error |
| Blackbox.BigEndianRoundTrip | graviton/blackbox.py:149-151 | the 8-byte big-endian encoding decodes back to the integer |
| Blackbox.Uint64Bytes | graviton/blackbox.py:149-151 | to_bytes(8, "big") succeeds exactly below 2^64 and encodes the value |
| Blackbox.Utf8OfAscii | graviton/blackbox.py:149-151 | an ASCII string encodes to its own code points |
| Blackbox.ToBytes | graviton/blackbox.py:136-151 | bytes pass through; ints become 8 big-endian bytes; other values pass through under int-only conversion, else strings become utf-8 |
| Blackbox.PartialEncodeAssert | graviton/blackbox.py:175-194 | with an ABI type the encoder's result or an AssertionError; without one only bytes, non-negative ints and strings pass |
| Blackbox.EncodeArg | graviton/blackbox.py:154-172 | an ABI-typed argument is encoded by the codec; an int becomes its uint64 bytes; bytes and strings are kept |
| Blackbox.EncodeEach | graviton/blackbox.py:96-100 | succeeds exactly when each argument encodes, element by element |
| Blackbox.JammedType | graviton/blackbox.py:112-116 | the jammed tuple type exists exactly when every remaining type is an ABI type |
| Blackbox.ArgTypes | graviton/blackbox.py:86-94 | the type list is padded with None up to the argument count when shorter and kept whole when longer |
| Blackbox.EncodeArgs | graviton/blackbox.py:62-117 | a length mismatch under validation and more than 16 untyped arguments are AssertionErrors; up to 16 are encoded one by one; beyond, 15 plus one jammed tuple whose type has one child for every type from index 15 on |
| Blackbox.EncodeJammed | graviton/blackbox.py:106-117 | past 16 arguments, the result has 16 entries: the first 15 encoded one by one and the last the encoding of the tuple of the rest under the tuple type of every type from index 15 on |
| Blackbox.PlainArgsEncode | graviton/blackbox.py:96-100 | plain arguments within the limit always encode: ints to 8 bytes, the rest unchanged |
| Blackbox.AllParamsListed | graviton/blackbox.py:198-226 | the list of fields in declaration order contains every field |
| Blackbox.ParamIndex | graviton/blackbox.py:198-226 | each field has a position in declaration order that lists it |
| Blackbox.ParamIndexOfListed | graviton/blackbox.py:198-226 | the field listed at a position has that position, so no field is listed twice |
| Blackbox.ParamNamed | graviton/blackbox.py:198-226 | a field found for a dict key has that key as its name |
| Blackbox.ParamNameRoundTrip | graviton/blackbox.py:198-226 | every field is found back from its own name |
| Blackbox.ParamNamesDistinct | graviton/blackbox.py:198-226 | two fields with the same name are the same field |
| Blackbox.ParamNamesInjective | graviton/blackbox.py:198-226 | field names are pairwise distinct |
| Blackbox.ForAppValue | graviton/blackbox.py:252-293 | index defaults to 0 on creation and 42 otherwise; sender and sp are always truthy; non-app fields are None |
| Blackbox.DryRunTransactionParams.constructor | graviton/blackbox.py:198-226 | every field starts at its dataclass default |
| Blackbox.DryRunTransactionParams.Set | graviton/blackbox.py:304-312 | setting one field leaves every other field unchanged |
| Blackbox.DryRunTransactionParams.ForApp | graviton/blackbox.py:252-293 | each field of the new object is the value `for_app` gives it: sender, sp and index defaulted, given fields copied, the rest None |
| Blackbox.DryRunTransactionParams.AsDict | graviton/blackbox.py:295-302 | the dict holds every field except dryrun_accounts and box_refs, Nones dropped on request, with the field's value |
| Blackbox.DryRunTransactionParams.UpdateFields | graviton/blackbox.py:304-312 | each field takes the other's value when that is not None and otherwise keeps its own |
| Blackbox.InitImpl | graviton/blackbox.py:357-385 | without a signature there are no ABI types; with one, the parsed types, selector and return type, or the parse failure |
| Blackbox.AbiAdapterSpec | graviton/blackbox.py:509-552 | under validation, argument counts must match with or without the selector; the selector is added or dropped as omit_method_selector says; without validation the types get a leading None |
| Blackbox.AbiAdapter | graviton/blackbox.py:509-552 | the adapter computes its specification |
| Blackbox.AdapterMatchesCounts | graviton/blackbox.py:509-552 | after validation there is one encoding type per argument |
| Blackbox.ExecutorPrep | graviton/blackbox.py:497-507 | ABI methods go through the adapter and then the encoder; others straight to the encoder |
| Blackbox.SelectorSurvivesEncoding | graviton/blackbox.py:497-552 | when the selector is not omitted, the first argument both before and after encoding is the method selector |
| Blackbox.RunShape | graviton/blackbox.py:445-459 | one tuple is a single run; a non-empty list of tuples is a run sequence in order; anything else is an AssertionError |
| Inspector.ModeHasProperty | graviton/inspector.py:49-62 | apps have every property; logic sigs lack cost, budgetAdded, budgetConsumed and lastLog |
| Inspector.FromStack | graviton/inspector.py:73-74 | a stack value is bytes-typed exactly when its type is 1 and never hides empties |
| Inspector.FromScratch | graviton/inspector.py:77-78 | a scratch value is bytes-typed exactly when its bytes are non-empty and hides empties |
| Inspector.Str | graviton/inspector.py:83-88 | rendering fails exactly for a shown value of unknown type; bytes render as 0x-hex |
| Inspector.AsPythonType | graviton/inspector.py:90-93 | None for an unknown type, the int for uints and the rendered text for bytes |
| Inspector.ScratchSlotValue | graviton/inspector.py:77-93 | a non-empty scratch slot reads as its 0x-hex bytes when it has bytes, else as its non-zero uint |
| Inspector.NonEmptySlots | graviton/inspector.py:142-145 | a step's slot map holds exactly its non-empty scratch slots |
| Inspector.ScratchDelta | graviton/inspector.py:150-155 | new slots when there are any, else exactly the changed slots |
| Inspector.DeltaPatchesScratch | graviton/inspector.py:150-159 | the previous state patched with the delta equals the current state exactly when no slot vanished and, when new slots appeared, no old slot changed |
| Inspector.SlotsBelow | graviton/inspector.py:146 | a strictly increasing listing of the set's members below a bound |
| Inspector.UnionKeysMembership | graviton/inspector.py:146 | a slot is used exactly when some step has it |
| Inspector.SlotsBounded | graviton/inspector.py:146 | every used slot lies within the widest scratch |
| Inspector.SlotsUsed | graviton/inspector.py:146 | slots_used is the sorted set of slots that are non-empty at some step |
| Inspector.ProgramCounters | graviton/inspector.py:116 | one pc per step, in order |
| Inspector.LineNumbers | graviton/inspector.py:117 | one line number per step, in order |
| Inspector.SourceLines | graviton/inspector.py:119-124 | each step shows its error when it has one, else its source line |
| Inspector.RawStacks | graviton/inspector.py:129-131 | one decoded stack per step |
| Inspector.RawStack | graviton/inspector.py:129-131 | each stack entry is read with from_stack |
| Inspector.Deltas | graviton/inspector.py:157-159 | the first delta is the first scratch state and later ones are step-to-step deltas |
| Inspector.ScrapeSpec | graviton/inspector.py:109-190 | scrape succeeds exactly for a non-empty trace whose line numbers resolve, and fills every field from the trace |
| Inspector.ScratchDeltas | graviton/inspector.py:157-159 | the delta loop computes Deltas |
| Inspector.Scrape | graviton/inspector.py:109-190 | the scrape method computes its specification |
| Inspector.ScrapeWellDefined | graviton/inspector.py:192-201 | a scraped result always passes assert_well_defined, with one entry per step |
| Inspector.FinalScratchNonEmpty | graviton/inspector.py:142-147 | the final scratch holds only non-empty slots, all of them among slots_used |
| Inspector.MaxStackHeightOf | graviton/inspector.py:219-220 | the maximum bounds every stack height and is reached by one |
| Inspector.DigMaxStackHeight | graviton/inspector.py:449-450 | `dig(maxStackHeight)` fails exactly on an empty trace; otherwise it is an int that bounds every step's stack height and is reached by some step |
| Inspector.ExtractedScrape | graviton/inspector.py:328-332 | a consistently built inspector holds the scrape of its own non-empty trace |
| Inspector.ExtractedStatus | graviton/inspector.py:809-811 | a consistently built inspector's status is the second app-call message in Application mode and the first logic-sig message in Signature mode |
| Inspector.FinalStackTop | graviton/inspector.py:212-217 | None for an empty final stack; otherwise the top as text when bytes-typed, else its uint |
| Inspector.FinalScratchValues | graviton/inspector.py:222-230 | the final scratch has exactly the scraped slots |
| Inspector.FinalScratchTyped | graviton/inspector.py:142-147 | every final scratch slot has a known type |
| Inspector.FinalScratchIsPythonTyped | graviton/inspector.py:438-439 | final_scratch equals dig(finalScratch) slot by slot |
| Inspector.GetTxnMode | graviton/inspector.py:366-380 | exactly one trace key must be present, else an AssertionError; the app trace means Application |
| Inspector.ExtractLogs | graviton/inspector.py:797-798 | one hex string per log, in order; none when absent |
| Inspector.ExtractCost | graviton/inspector.py:801-806 | cost exists exactly when both budgets do, and cost plus added is consumed |
| Inspector.ExtractStatus | graviton/inspector.py:809-811 | the status is message 1 for apps and message 0 for logic sigs; a missing key or index fails |
| Inspector.ExtractAll | graviton/inspector.py:834-848 | every extract comes from the mode's keys and bbr is the scrape of the mode's trace and lines |
| Inspector.Build | graviton/inspector.py:309-343 | missing transactions or an out-of-range index are AssertionErrors; the result inspects the indexed transaction in its mode |
| Inspector.FromSingleResponse | graviton/inspector.py:383-398 | a response error or a count other than one transaction is an AssertionError; otherwise the inspector of transaction 0 |
| Inspector.AbiParamsOrArgs | graviton/inspector.py:348-349 | with an ABI type the selector argument is dropped, else all arguments are kept |
| Inspector.OptionNamed | graviton/inspector.py:307 | only the three configuration names are recognised |
| Inspector.WithSetting | graviton/inspector.py:361 | setattr changes one option only |
| Inspector.ConfigSpec | graviton/inspector.py:351-361 | an unknown key is a ValueError with nothing changed; a non-bool is an AssertionError |
| Inspector.ConfigSetsLastGiven | graviton/inspector.py:351-361 | with known boolean keys each option ends at the last value given for it, or is unchanged |
| Inspector.SetAllSetsLastGiven | graviton/inspector.py:356-361 | the setattr loop leaves each option at its last given value |
| Inspector.SetAllSnoc | graviton/inspector.py:356-361 | one more keyword performs one more setattr |
| Inspector.DryRunInspector.constructor | graviton/inspector.py:339-343 | the configuration starts with suppress_abi off, has_abi_prefix as the truth of the ABI type, and internal errors shown |
| Inspector.DryRunInspector.Config | graviton/inspector.py:351-361 | the new settings and outcome are exactly ConfigSpec of the old settings |
| Inspector.DecodeLog | graviton/inspector.py:428-436 | a decode that succeeds is returned; with internal errors shown decoding never raises |
| Inspector.DryRunInspector.DigLastLog | graviton/inspector.py:419-436 | no logs give None; an empty log list is an IndexError; without ABI decoding the last log's hex |
| Inspector.DryRunInspector.Dig | graviton/inspector.py:400-484 | mode-missing properties are AssertionErrors; cost is the extracted cost; stackTop is read with `from_scratch`; error and errorMessage follow the error assertions; unknown properties raise |
| Inspector.DryRunInspector.PassedRejectedFromStatus | graviton/inspector.py:452-459 | passed and rejected are status tests and never both true |
| Inspector.DryRunInspector.StatusIsModeMessage | graviton/inspector.py:809-811 | the status is the mode's status message |
| Inspector.DryRunInspector.CostIsExtractedCost | graviton/inspector.py:409-411 | dig(cost) is consumed minus added, and a missing budget is a KeyError |
| Inspector.DryRunInspector.DigStackTopAgrees | graviton/inspector.py:441-447 | when the final top is typed bytes exactly when its bytes are non-empty, dig(stackTop) agrees with final_stack_top |
| Inspector.DryRunInspector.DigIsStackTop | graviton/inspector.py:441-447 | every mode answers dig(stackTop), with the as-written `from_scratch` reading of the extracted trace |
| Inspector.DryRunInspector.DigMaxStackHeightAgrees | graviton/inspector.py:449-450 | dig(maxStackHeight) is the maximum stack height of the scrape |
| Inspector.DryRunInspector.DigFinalScratchAgrees | graviton/inspector.py:438-439 | dig(finalScratch) is the scraped final scratch |
| Inspector.DigStackTopAsWritten | graviton/inspector.py:441-447 | dig(stackTop) as written fails on an empty trace, gives None exactly for an empty final stack, and otherwise reads the top as "0x"-hex when its bytes are non-empty and as its uint when they are empty |
| Inspector.StackTopReadingsAgree | graviton/inspector.py:441-447 | the as-written dig(stackTop) and the `final_stack_top` reading agree exactly when the final top is typed bytes exactly when its bytes are non-empty |
| Inspector.EmptyBytesTopReadsAsZero | graviton/inspector.py:441-447 | an empty bytes-typed top reads as 0 through dig but as "0x" through final_stack_top |
| Inspector.DigStackTop | graviton/inspector.py:212-217 | the corrected stack-top reading, by the entry's type as in final_stack_top, gives None exactly for an empty final stack |
| Inspector.DigStackTopIsFinalStackTop | graviton/inspector.py:212-217 | the corrected dig(stackTop) equals final_stack_top on every scraped trace |
| Inspector.DigStackTopValue | graviton/inspector.py:212-217 | under the corrected reading the top reads as its 0x-hex bytes when typed as bytes, else as its uint |
| Invariants.GetKind | graviton/invariant.py:41-66 | each predicate form maps to its kind (two-argument callable, range; one-argument, exact; dict, case map; other, constant); other arities are AssertionErrors |
| Invariants.NewInvariant | graviton/invariant.py:72-86 | construction succeeds exactly when the kind is found and keeps definition, enforce and name |
| Invariants.PredicateValue | graviton/invariant.py:178-235 | identical pairs compare with the identity's value; case maps look the arguments up (a KeyError when missing); constants compare; range predicates call the user; exact predicates compare the user's value |
| Invariants.Expected | graviton/invariant.py:129-134 | the expected value is the pair, the range note, the constant, the case or the user's exact value by kind |
| Invariants.ReportHead | graviton/invariant.py:118 | the head of a failure message is "Invariant of ", the kind and " for '", followed by the invariant's name and "' failed for for args" |
| Invariants.Call | graviton/invariant.py:95-127 | a report exactly when the verdict is falsy, with its kind, name, args, actual and expected value; enforce raises exactly on a falsy verdict, with an AssertionError carrying the report head |
| Invariants.VerdictAgreesWithExpected | graviton/invariant.py:129-134 | except for range predicates the verdict holds exactly when the expected value is the actual one |
| Invariants.CallMessageIffFailed | graviton/invariant.py:95-127 | unenforced calls never raise and report exactly on failure |
| Invariants.CheckRow | graviton/invariant.py:160-176 | a row passes exactly when dig succeeds and the verdict on it is truthy |
| Invariants.CheckIdentityRow | graviton/invariant.py:148-158 | identity rows need the same ABI type and the same parameters, then compare the two digs |
| Invariants.ValidatesSpec | graviton/invariant.py:136-176 | identities with a kind other than IdenticalPair are an AssertionError |
| Invariants.FirstFailureAllPass | graviton/invariant.py:170-175 | stopping at the first failed assertion passes exactly when every result from the start on passes |
| Invariants.FirstFailureIsEarliest | graviton/invariant.py:170-175 | a failure reported is the result at some position all of whose predecessors passed |
| Invariants.ValidatesAllRowsPass | graviton/invariant.py:170-175 | without identities, validation passes exactly when every inspector's row passes |
| Invariants.ValidatesFirstFailingRow | graviton/invariant.py:170-175 | without identities, a failing validation reports the error of a row all of whose predecessors pass |
| Invariants.ValidatesIdentityRowsPass | graviton/invariant.py:148-168 | identity validation passes exactly when there are at least as many identities as inspectors and every paired row passes |
| Invariants.Validates | graviton/invariant.py:136-176 | the validation loop computes its specification |
| Invariants.AsInvariantsFrom | graviton/invariant.py:293-306 | succeeds exactly when every key is a property of the mode and every predicate has a kind; each invariant is named by its property |
| Invariants.AsInvariantsIsDict | graviton/invariant.py:293-306 | distinct keys give distinct properties |
| Invariants.PrependStep | graviton/invariant.py:293-306 | one loop step appends one prepared invariant |
| Invariants.AsInvariants | graviton/invariant.py:293-306 | the loop computes AsInvariantsFrom |
| Invariants.FullValidationIff | graviton/invariant.py:308-322 | full validation passes exactly when the predicates prepare for Application mode and all validate |
| Invariants.FullValidation | graviton/invariant.py:308-322 | the method computes its specification |
| Invariants.ValidateEach | graviton/invariant.py:308-322 | the loop over the prepared properties returns the first failed validation, in order, or success |
| Invariants.TupleItems | graviton/invariant.py:237-291 | the argument tuples in order |
| Invariants.InputsAndInvariants | graviton/invariant.py:237-291 | a non-dict scenario or bad inputs are AssertionErrors; inputs come out in order; invariants raw on request, else as_invariants of the dict |
| LegacyInvariants.NewLegacyInvariant | blackbox/invariant.py:15-23 | any predicate except a callable of another arity is accepted as given |
| LegacyInvariants.Verdict | blackbox/invariant.py:63-91 | dicts look up (a KeyError when missing); constants compare; two-argument callables are the verdict; one-argument callables compare |
| LegacyInvariants.LegacyExpectedOf | blackbox/invariant.py:39-40 | expected is the case, the constant, the callable's value or the predicate itself |
| LegacyInvariants.LegacyCall | blackbox/invariant.py:29-37 | a report exactly when the verdict is falsy; enforce raises exactly on a falsy verdict, with an AssertionError carrying the report head |
| LegacyInvariants.LegacyVerdictAgreesWithExpected | blackbox/invariant.py:29-40 | except for two-argument callables the verdict holds exactly when the expected value is the actual one |
| LegacyInvariants.LegacyRow | blackbox/invariant.py:42-61 | a row passes exactly when dig succeeds and the verdict is truthy |
| LegacyInvariants.LegacyValidatesSpec | blackbox/invariant.py:42-61 | differing numbers of inputs and inspectors is an AssertionError |
| LegacyInvariants.LegacyRowsAllPass | blackbox/invariant.py:42-61 | validation passes exactly when every row passes |
| LegacyInvariants.LegacyRowsFirstFailure | blackbox/invariant.py:42-61 | a failing validation reports the first failing row |
| LegacyInvariants.LegacyValidates | blackbox/invariant.py:42-61 | the loop computes its specification |
| LegacyInvariants.LegacyInvariantsFrom | blackbox/invariant.py:147-153 | succeeds exactly when every key fits the mode and every predicate is accepted; each invariant is named by its property |
| LegacyInvariants.LegacyInputsAndInvariantsSpec | blackbox/invariant.py:93-155 | a non-dict scenario or bad inputs are AssertionErrors; inputs in order; invariants raw or built from the dict |
| LegacyInvariants.PrependLegacyStep | blackbox/invariant.py:147-153 | one loop step appends one invariant |
| LegacyInvariants.LegacyInputsAndInvariants | blackbox/invariant.py:93-155 | the loop computes its specification |

## Left out

- I/O and the network are not modelled. This covers algod calls, `DryRunExecutor._executor` (graviton/blackbox.py:464-495) and the dry-run request, and the blocking calls of `DryRunExecutor._run`. The response is an input value.
- The Python `random` module and seeding are not modelled. Randomness is an oracle `nat -> nat` indexed by a draw position. The seed itself is recorded but does not drive the oracle.
- The ABI codec (`ABIType.encode` and `decode`), method-signature parsing, contract JSON parsing and address base32 encoding are not modelled. They are function parameters or abstract descriptors.
- Base64 decoding is not modelled: logs and TEAL byte values are taken as already decoded.
- Text rendering beyond `TealVal.__str__` and the plain-text head of an invariant's failure message is not modelled: `repr`, report tables, csv and tabulate, `final_as_row`, `stack_evolution`, `scratch_evolution` text and `DryRunInspector.report`. Failure messages that embed `repr` are structured records instead of strings.
- `DryRunEncoder.hex`, `hex0x` and `DryRunTransactionParams.for_logicsig` are not modelled. They are outside the modelled core.
- Python equality is structural equality of modelled values: `True == 1` and int/float mixing are not captured.
- Deprecated modules are not part of this model: graviton/deprecated_dryrun.py, graviton/deprecated_dryrun_mixin.py and the simulation driver graviton/sim.py.
- Callables are described by a recorded arity. Introspecting a callable without a signature is not modelled.
- LegacyInvariants.LegacyRow: the legacy inspector's `dig` is a function parameter, because the legacy inspector in blackbox/blackbox.py is not part of this model. Its mode test is taken to be the current one.
- Models.FieldNamed: `hasattr(self, key)` in `App.factory` also accepts the names of methods such as `factory`; the model accepts field names only, so setting a method name through `factory` is not modelled.
- Inspector.DecodeLog: the codec's error text is opaque. The contract does not state which exception escapes when a decode fails and internal errors are hidden.
- Inspector.DryRunInspector.Dig: `lastMessage`, `globalStateHas` and `localStateHas` are stated only as far as the source defines them (the last two raise).
- AbiStrategy.Gen: a draw is `oracle(pos) % range`. Uniformity of the distribution is not stated.

## Findings

| source | as written | input that shows it | evidently intended | confidence | as-written member | corrected member |
|---|---|---|---|---|---|---|
| graviton/abi_strategy.py:119-128 | `map` runs `isinstance(self.abi_type, abi_type)` on every waterfall key, including the string "DEFAULT" | an ABI type that is none of the listed ones (`OtherAbiType(name)`), at the top or as the child of a tuple or array (`TupleType([OtherAbiType(name)])` with `[0]`), reaches the "DEFAULT" key of its table and raises TypeError from isinstance | the "DEFAULT" handler `unexpected_type` runs and raises ValueError("Unexpected abi_type ...") | high (not executed) | AbiStrategy.UnknownTypeHitsDefaultKey | AbiStrategy.MapDispatchesMutate |
| graviton/inspector.py:441-447 | `dig(stackTop)` reads the final top with `TealVal.from_scratch`, which decides the type from non-empty bytes | a final stack `[{uint: 0, bytes: "", type: 1}]` (an empty byte string) reads as 0 | the same answer as `final_stack_top` (lines 212-217), which uses the stack's type field and gives "0x" | medium (not executed) | Inspector.EmptyBytesTopReadsAsZero | Inspector.DigStackTopIsFinalStackTop |

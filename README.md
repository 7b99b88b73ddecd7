# Noir: SSA data-flow graph and Barretenberg proving backend

This project models two parts of the Noir toolchain in Dafny and proves properties of them.

**The SSA data-flow graph** (`dfg.dfy`, module `SsaDfg`). A `DataFlowGraph` owns growing
arenas of instructions, values and basic blocks, plus one `ValueList` of result ids per
instruction. Each insertion hands back a fresh id: the arena's length before the insertion.
The class invariant `Valid()` says two things. Exactly the handed-out instruction ids have a
result list, each list its own object. Every result slot and every block-parameter slot
names a value that records that slot: its instruction or block, and its position. Every
operation keeps this invariant. The `assert_eq!` in `append_result` is proved never to fail.
`make_instruction_results` clears the list first and then appends one fresh value per result
type, so its result count equals the list's length afterwards, however often it is called.

**The proving backend** (`proof_layout.dfy`, module `ProofLayout`, and `backend.dfy`,
module `Backend`). The engine returns one blob: the flattened public inputs, then a proof of
exactly 2144 bytes. `generateProof` cuts the blob with `Uint8Array.slice`.
`reconstructProofWithPublicInputs` joins the two parts back together. Both directions are
proved, and so is the round trip through `ProofData`. The `BarretenbergBackend` session
records every engine call it makes in the field `trace`. Its invariant says four things:

- an uninstantiated session has made no call;
- an instantiated one began with exactly the seven setup calls;
- it never repeats them;
- every proving, verifying and artifact call comes after the proving key was initialised.

`instantiate` sets up only when `api` is unset and is idempotent. `destroy` makes no call on
a session never instantiated. The final entry points pass `makeEasyToVerifyInCircuit = false`
and the intermediate ones `true`.

Three behaviours of the code are worth knowing; the model follows the code in each:

- **Short blobs.** A blob shorter than 2144 bytes is not rejected. `splitIndex` becomes
  negative, and `slice` counts it from the end. The parts still join to the blob, but the
  proof part is shorter than 2144 bytes. `ShortBlobSplitsIntoShortProof` states what comes
  out. There is no length check.
- **Destroy.** `destroy` does not clear `api`. A second `destroy`, or any call after it,
  reaches the released engine again. `Destroyed` records that.
- **Misleading name.** `generateFinalProof` names its argument `decompressedWitness`, but
  `generateProof` decompresses it.

Inputs from outside the core are parameters:

- The engine (`Engine`) is a record of total functions and one constant. The functions
  cover circuit sizes, proof creation, proof serialisation, verification and
  field-to-string. The constant is the serialised verification key with its hash.
- So are the decoders (`Codecs`): base64 bytecode decoding, `gunzip`, and the public-input
  flattening and deflattening.
- On the graph side, `Instruction::return_types` is the function-valued field `returnTypes`.

## Model

| member | source | states |
|---|---|---|
| `SsaDfg.ValueList.Push` | crates/noirc_evaluator/src/ssa_refactor/ir/dfg.rs:19-22 | `AsSlice()` grows by exactly the pushed id, earlier entries unchanged; `Len()` grows by one; the returned position is the old `Len()`, where the id now sits |
| `SsaDfg.ValueList.Len` | crates/noirc_evaluator/src/ssa_refactor/ir/dfg.rs:24-26 | no contract of its own: the contracts of `Push` (`Len()` grows by one, the position is the old `Len()`), `Clear` and the constructor (`Len() == 0`) pin it down |
| `SsaDfg.ValueList.Clear` | crates/noirc_evaluator/src/ssa_refactor/ir/dfg.rs:29-31 | afterwards `AsSlice()` is empty and `Len()` is 0 |
| `SsaDfg.ValueList.AsSlice` | crates/noirc_evaluator/src/ssa_refactor/ir/dfg.rs:33-35 | no contract of its own: the contracts of `Push` (`AsSlice() == old(AsSlice()) + [value]`), `Clear` and the constructor (`AsSlice() == []`) pin down the ids it returns, in order |
| `SsaDfg.ValueList.constructor` | crates/noirc_evaluator/src/ssa_refactor/ir/dfg.rs:12-14 | the derived `Default` list, as `make_instruction` installs it: `AsSlice()` is empty and `Len()` is 0 |
| `SsaDfg.DataFlowGraph.constructor` | crates/noirc_evaluator/src/ssa_refactor/ir/dfg.rs:38-63 | the default graph has empty arenas and satisfies the back-pointer invariant |
| `SsaDfg.DataFlowGraph.NewBlock` | crates/noirc_evaluator/src/ssa_refactor/ir/dfg.rs:69-71 | appends one block with no parameters; its id is the old block count; nothing else changes |
| `SsaDfg.DataFlowGraph.NewBlockWithParameters` | crates/noirc_evaluator/src/ssa_refactor/ir/dfg.rs:76-87 | appends one block whose i-th parameter is a fresh value `Param(new id, i, i-th type)`; values grow by exactly those parameters; invariant kept |
| `SsaDfg.DataFlowGraph.BlockParameters` | crates/noirc_evaluator/src/ssa_refactor/ir/dfg.rs:89-91 | the p-th parameter of a block is a value recording that block and position p |
| `SsaDfg.DataFlowGraph.MakeInstruction` | crates/noirc_evaluator/src/ssa_refactor/ir/dfg.rs:94-100 | appends exactly one instruction, returns its id (the old count), gives it a fresh empty result list, leaves other lists alone |
| `SsaDfg.DataFlowGraph.MakeValue` | crates/noirc_evaluator/src/ssa_refactor/ir/dfg.rs:102-104 | appends the value and returns its fresh id; invariant kept |
| `SsaDfg.DataFlowGraph.InstructionResultTypes` | crates/noirc_evaluator/src/ssa_refactor/ir/dfg.rs:136-147 | no contract of its own: the contract of `MakeInstructionResults` ties the returned count to its length and the type of each new result value to its entries, for a non-call instruction below the count |
| `SsaDfg.DataFlowGraph.MakeInstructionResults` | crates/noirc_evaluator/src/ssa_refactor/ir/dfg.rs:110-129 | the returned count is the number of result types and equals the length of the instruction's result list afterwards; the list holds exactly the fresh values, the i-th recording position i and the i-th type; old results are dropped, so repeated calls do not accumulate |
| `SsaDfg.DataFlowGraph.AppendResult` | crates/noirc_evaluator/src/ssa_refactor/ir/dfg.rs:150-164 | the new value records the instruction and position = old list length, which is the slot the push returns, so the assertion always holds; the list grows by that id only |
| `SsaDfg.DataFlowGraph.NumInstructions` | crates/noirc_evaluator/src/ssa_refactor/ir/dfg.rs:168-170 | exactly the ids below the count have a result list |
| `SsaDfg.DataFlowGraph.InstructionResults` | crates/noirc_evaluator/src/ssa_refactor/ir/dfg.rs:173-175 | the p-th result of an instruction is a value recording that instruction and position p |
| `SsaDfg.DataFlowGraph.AddBlockParameter` | crates/noirc_evaluator/src/ssa_refactor/ir/dfg.rs:177-183 | a fresh value `Param(block, old parameter count, typ)` is appended to values and to the block's parameters; other blocks unchanged |
| `SsaDfg.FreshIds` | crates/noirc_evaluator/src/ssa_refactor/ir/dfg.rs:102-104 | an arena holding `base` entries hands out the ids `base`, `base + 1`, … in order |
| `SsaDfg.ResultValues` | crates/noirc_evaluator/src/ssa_refactor/ir/dfg.rs:124-126 | the values the result loop creates: the i-th has the i-th result type and records the instruction and position i |
| `SsaDfg.ParamValues` | crates/noirc_evaluator/src/ssa_refactor/ir/dfg.rs:81-83 | the values the parameter loop creates: the i-th has the i-th type and records the block and position i |
| `SsaDfg.GrowValuesKeepsPointBack` | crates/noirc_evaluator/src/ssa_refactor/ir/dfg.rs:102-104 | inserting values never invalidates any result or parameter slot |
| `SsaDfg.AppendResultKeepsPointBack` | crates/noirc_evaluator/src/ssa_refactor/ir/dfg.rs:150-164 | pushing a value whose position is the list's old length keeps every result slot consistent |
| `SsaDfg.AddParameterKeepsPointBack` | crates/noirc_evaluator/src/ssa_refactor/ir/dfg.rs:177-183 | adding a parameter whose position is the old parameter count keeps every block consistent |
| `SsaDfg.ResultsAreDistinct` | crates/noirc_evaluator/src/ssa_refactor/ir/dfg.rs:150-164 | in a consistent graph no value fills two result slots, of one instruction or of two |
| `SsaDfg.ParamsAreDistinct` | crates/noirc_evaluator/src/ssa_refactor/ir/dfg.rs:177-183 | in a consistent graph no value is two block parameters |
| `ProofLayout.RelativeIndex` | tooling/noir_js_backend_barretenberg/src/index.ts:96-97 | `slice` resolves an index into `[0, len]`: in-range kept, negative counted from the end, out of range clamped |
| `ProofLayout.Slice` | tooling/noir_js_backend_barretenberg/src/index.ts:96 | a slice is never longer than the array |
| `ProofLayout.SliceFrom` | tooling/noir_js_backend_barretenberg/src/index.ts:97 | `slice(start)` is the suffix from the resolved start |
| `ProofLayout.SliceWithinBounds` | tooling/noir_js_backend_barretenberg/src/index.ts:96 | with in-range indices `slice` is the ordinary subsequence |
| `ProofLayout.SplitProofWithPublicInputs` | tooling/noir_js_backend_barretenberg/src/index.ts:94-97 | prefix ++ proof is always the blob; with at least 2144 bytes the proof is exactly the last 2144 and the prefix the first `len - 2144`; with fewer the proof part is shorter than 2144 |
| `ProofLayout.ShortBlobSplitsIntoShortProof` | tooling/noir_js_backend_barretenberg/src/index.ts:94-97 | for a blob shorter than 2144 bytes the cut falls at `max(2·len − 2144, 0)` |
| `ProofLayout.ProofDataFromBlob` | tooling/noir_js_backend_barretenberg/src/index.ts:94-100 | for a blob of at least 2144 bytes, the proof is the 2144-byte suffix and the public inputs are the deflattened prefix |
| `ProofLayout.ReconstructProofWithPublicInputs` | tooling/noir_js_backend_barretenberg/src/index.ts:181-189 | the flattened public inputs come first and the proof after them; the length is the sum |
| `ProofLayout.SplitAfterReconstruct` | tooling/noir_js_backend_barretenberg/src/index.ts:181-189 | splitting a reconstructed blob with a 2144-byte proof returns the same flattened prefix and the same proof bytes |
| `ProofLayout.ProofDataRoundTrip` | tooling/noir_js_backend_barretenberg/src/index.ts:94-100 | under the deflatten∘flatten round-trip assumption, proof data survives reconstruct-then-split unchanged |
| `ProofLayout.ReconstructAfterProofDataFromBlob` | tooling/noir_js_backend_barretenberg/src/index.ts:94-100 | under the flatten∘deflatten assumption on the prefix, split-then-reconstruct returns the engine's blob |
| `Backend.InstantiationCalls` | tooling/noir_js_backend_barretenberg/src/index.ts:37-45 | instantiation makes seven setup calls, ending with the proving-key initialisation |
| `Backend.Instantiated` | tooling/noir_js_backend_barretenberg/src/index.ts:32-48 | after instantiation `api` is set |
| `Backend.InstantiateIdempotent` | tooling/noir_js_backend_barretenberg/src/index.ts:32-48 | instantiating twice is the same as instantiating once |
| `Backend.InstantiatedWellFormed` | tooling/noir_js_backend_barretenberg/src/index.ts:32-48 | instantiation keeps the session well-formed; it makes exactly the setup calls when `api` was unset and changes nothing when it was set |
| `Backend.CallsKeepWellFormed` | tooling/noir_js_backend_barretenberg/src/index.ts:167-171 | engine calls other than setup, made after instantiation, keep the session well-formed |
| `Backend.EngineUseFollowsInstantiation` | tooling/noir_js_backend_barretenberg/src/index.ts:86 | in a well-formed session every non-setup engine call comes after the complete setup sequence |
| `Backend.SetupHappensAtMostOnce` | tooling/noir_js_backend_barretenberg/src/index.ts:32-48 | in a well-formed session the setup calls were made exactly once if `api` is set, and never otherwise |
| `Backend.Destroyed` | tooling/noir_js_backend_barretenberg/src/index.ts:173-178 | `destroy` leaves the handles as they were |
| `Backend.DestroyedWellFormed` | tooling/noir_js_backend_barretenberg/src/index.ts:173-178 | on a never-instantiated session `destroy` changes nothing; otherwise it makes one release call; well-formedness kept |
| `Backend.FieldsToStrings` | tooling/noir_js_backend_barretenberg/src/index.ts:139-143 | no contract of its own: the contract of `GenerateIntermediateProofArtifacts` states that the proof and verification-key strings are these conversions of the engine's serialised fields |
| `Backend.BarretenbergBackend.constructor` | tooling/noir_js_backend_barretenberg/src/index.ts:23-29 | decodes the bytecode and makes no engine call; `api` and the composer are unset |
| `Backend.BarretenbergBackend.WithDefaultOptions` | tooling/noir_js_backend_barretenberg/src/index.ts:23-29 | the constructor called without options: `options` is `{ threads: 1 }`; otherwise as the constructor |
| `Backend.BarretenbergBackend.Instantiate` | tooling/noir_js_backend_barretenberg/src/index.ts:32-48 | the new state is `Instantiated(old state)`: setup only when `api` was unset, no change otherwise |
| `Backend.BarretenbergBackend.GenerateFinalProof` | tooling/noir_js_backend_barretenberg/src/index.ts:55-58 | instantiates, then asks for a proof with `makeEasyToVerifyInCircuit = false`, and returns its split |
| `Backend.BarretenbergBackend.GenerateIntermediateProof` | tooling/noir_js_backend_barretenberg/src/index.ts:79-82 | the same with `makeEasyToVerifyInCircuit = true` |
| `Backend.BarretenbergBackend.GenerateProof` | tooling/noir_js_backend_barretenberg/src/index.ts:85-101 | instantiates first, makes one proof call on the decompressed witness, and returns the proof data of the engine's blob; a long-enough blob yields a 2144-byte proof |
| `Backend.BarretenbergBackend.GenerateIntermediateProofArtifacts` | tooling/noir_js_backend_barretenberg/src/index.ts:120-144 | instantiates first, then serialises the reconstructed proof, initialises the verification key and serialises it; returns their string forms and the key hash |
| `Backend.BarretenbergBackend.VerifyFinalProof` | tooling/noir_js_backend_barretenberg/src/index.ts:146-151 | verifies the reconstructed blob with `makeEasyToVerifyInCircuit = false` |
| `Backend.BarretenbergBackend.VerifyIntermediateProof` | tooling/noir_js_backend_barretenberg/src/index.ts:160-164 | verifies the reconstructed blob with `makeEasyToVerifyInCircuit = true` |
| `Backend.BarretenbergBackend.VerifyProof` | tooling/noir_js_backend_barretenberg/src/index.ts:167-171 | instantiates first, initialises the verification key, and returns the engine's verdict unchanged |
| `Backend.BarretenbergBackend.Destroy` | tooling/noir_js_backend_barretenberg/src/index.ts:173-178 | no engine call when never instantiated; otherwise exactly one release call; handles not cleared |

## Left out

- The `@aztec/bb.js` engine is not modelled. It covers circuit sizing, the reference-string
  download, the allocator, key generation, proving, verification and serialisation. Its
  answers are total functions of the request. Its failures, its internal key state and any
  randomness in proving are not modelled.
- The engine functions do not take the composer as an argument. The composer and the keys
  belong to the one circuit of the session.
- `Crs.new(n)` is assumed to report `n` points. Crs internals are not part of this model.
- `gunzip` (fflate) and `acirToUint8Array` (serialize.js) are not modelled. They are
  function-valued parameters. Their failures, such as `gunzip` on a malformed witness, are
  not modelled.
- `flattenPublicInputsAsArray` and `deflattenPublicInputs` (public_inputs.js) are not
  modelled. They are function values, and their failures are not modelled. Their round-trip law is a precondition of the lemmas
  that need it, not a proved fact.
- The ABI and the shape of a public input are not modelled. Only `deflattenPublicInputs`
  reads them.
- `Uint8Array.from` truncating numbers to bytes is not modelled. Both inputs are already
  bytes.
- Promises and concurrent calls on one session are not modelled. Every operation runs to
  completion in sequence.
- Exceptions thrown part-way through `instantiate` are not modelled. The source sets the
  composer before `api`.
- The default argument `options = { threads: 1 }` is the constant `DefaultOptions`, which
  the constructor `WithDefaultOptions` applies. The default `numOfPublicInputs = 0` of
  `generateIntermediateProofArtifacts` is not modelled; the model always takes the argument.
- The `Instruction::Call` branch of `instruction_result_types` panics with `todo!`. It is
  excluded by a precondition of both `InstructionResultTypes` and `MakeInstructionResults`.
- Types, instructions, basic blocks and `DenseMap` live in files not part of this model.
  Only what the graph uses of them is modelled.
- Ids are plain naturals, not typed `Id<T>`.
- Rust's `Value::Instruction` is named `InstructionResult` here, because `Instruction` is
  already the type of instructions.
- `signatures` is not modelled. No operation of the graph reads or writes it.
- `SsaDfg.DataFlowGraph.MakeInstructionResults`: an id without a result list panics in
  Rust. The model requires a valid instruction id instead, and the invariant then gives it a
  list.
- `SsaDfg.DataFlowGraph.AppendResult`: requires the instruction to have a result list, for
  the same reason.
- `SsaDfg.DataFlowGraph.InstructionResults`: requires `instructionId in results`. The
  `expect` in Rust panics on an id without a result list.
- `SsaDfg.DataFlowGraph.BlockParameters`: requires `block < |blocks|`. Indexing the block
  arena in Rust panics on an unknown block.
- `SsaDfg.DataFlowGraph.AddBlockParameter`: requires `blockId < |blocks|`. Rust panics on an
  unknown block.
- `SsaDfg.DataFlowGraph.InstructionResultTypes`: requires an id below the instruction count
  and a non-call instruction. Indexing the instruction arena in Rust panics otherwise, and
  a call reaches the `todo!`.
- The integration test under `compiler/integration-tests` is not modelled. It compiles,
  reads files and deploys contracts.

# Chunked remote inference client — a Dafny model

The deai client drives autoregressive text generation on a remote inference
backend. The backend caps the work of a single call, so neither ingesting the
prompt nor one forward pass over all model layers fits in one call. The client
therefore:

- keeps the whole session, including the per-layer key/value cache, on its own side;
- advances a model run a few layers per call (`forward`);
- sends each call only the window of the cache those layers need;
- merges every returned cache back into its canonical session.

The model covers the three near-copies of this client logic:
`deai_client/src/internal.rs` (Rust), `client/internal.ts` (TypeScript) and the
older `client/client.ts`. It also covers the Llama-3 chat template of
`deai_client/src/lib.rs`.

Modules:

- `Types`: the session (`Session`, with `caches: map<nat, KV>`), the run handle
  (`ModelRun`, with the closed progress variant `Steps(k) | Finish | Finished`),
  and opaque tensors.
- `CacheLedger`: the window (`get_reduced_session`), the strip (`get_simple_session`)
  and the merge (`update_session`) over the map. It also has the merge as the
  source writes it, two insertion loops in arbitrary `HashMap` order.
- `ListLedger`: the TypeScript cache arrays. `ToMap` reads an array as the map it
  stands for, with later entries winning. The array `filter` and the
  object-fold/`Object.entries` merge are proved to agree with the map operations.
- `Remote`: the backend interface, with one function per remote operation.
  `None` means the call failed.
- `ChunkDriver`, `ChunkDriverLaws`: `forward`, the trace of calls it makes, and
  its laws: the fold of the returned caches, resumability, and the call count
  under a well-behaved backend.
- `Phases`: `step`, the older `step` of `client/client.ts`, and `start_iterative`
  with its Rust and TypeScript policies.
- `Orchestrator`, `OrchestratorLaws`: the capped decode loop of `prompt` /
  `internal_prompt`, the 100-step `main` of `client/client.ts`, and the library
  entry points `chat` and `prompt`.
- `ChatTemplate`: role names, message rendering, the chat prompt, and parsing a
  rendered message back.

The backend is deterministic, so each remote operation is a function of its
request. A loop that the source leaves unbounded takes a `fuel` bound and fails
with `OutOfFuel` once that bound is used up. This applies to the `forward` calls
and to the `start_iterative` rounds. Call failures become `CallFailed`. The Rust
`run.unwrap()` on an empty `begin_start` reply becomes `NoRun`.

## Behaviour worth knowing

- `step` merges the forwarded cache over the session `end_step` returns. The
  locally forwarded value wins on every layer both sides hold.
- When `begin_start` returns no run, nothing checks whether the prompt is
  exhausted. The TypeScript clients return `""` together with the session that
  was passed to `begin_start`, and then go on decoding. The Rust client
  unwraps the empty run and traps.
- Ingestion ends when `end_start` returns `Some(text)`, whatever the text is;
  an empty string ends it too.
- `client/client.ts` reads `end_step` as `[text, session]`, and its `main`
  never checks for end-of-sequence. Its `step` is modelled twice: against a
  two-field `end_step` reply (`Remote.LegacyEndStepReply`), under which `main`
  makes its 100 steps when every call succeeds, and against the three-field reply
  `(text, eos, session)` that the other two clients read, under which the
  end-of-sequence flag is taken as the session and the step throws.

## Model

| member | source | states |
|---|---|---|
| CacheLedger.Window | deai_client/src/internal.rs:160-171 | under `Steps(k)` the window holds exactly the input's layers in `[k, k+n)`, with unchanged values; under `Finish`/`Finished` it is empty |
| CacheLedger.WindowContained | deai_client/src/internal.rs:165 | every layer sent in a window lies in `[k, k+n)` |
| CacheLedger.WindowIdempotent | deai_client/src/internal.rs:160-166 | windowing an already windowed cache changes nothing |
| CacheLedger.WindowOfMerge | deai_client/src/internal.rs:154-196 | windowing distributes over merging |
| CacheLedger.MergeWindowBack | deai_client/src/internal.rs:141-148 | merging a window of the cache back into it leaves the cache as it was |
| CacheLedger.ReducedSession | deai_client/src/internal.rs:154-173 | the reduced session differs from the input only in its cache, which is the window of the run's state |
| CacheLedger.ReducedIsSimpleWhenNotStepping | deai_client/src/internal.rs:168-170 | outside `Steps` the reduced session is the stripped session |
| CacheLedger.SimpleSession | deai_client/src/internal.rs:176-180 | the stripped session has an empty cache and the input's logit processor and token stream |
| CacheLedger.Merge | deai_client/src/internal.rs:187-194 | merged keys are the union; the update's value wins on shared keys; base-only keys keep the base value |
| CacheLedger.MergeByInsertion | deai_client/src/internal.rs:187-194 | inserting all base entries and then all update entries, in any order, yields that union where the update wins |
| CacheLedger.UpdateSession | deai_client/src/internal.rs:183-196 | the merged session takes its non-cache fields from `base` and its cache from the merge |
| CacheLedger.MergeIdempotent | deai_client/src/internal.rs:187-195 | merging a cache with itself gives it back |
| CacheLedger.MergeEmpty | deai_client/src/internal.rs:187-195 | an empty update leaves the base cache unchanged; an empty base yields the update |
| CacheLedger.MergeAssociative | deai_client/src/internal.rs:187-195 | merges regroup freely, so a chain of merges is one fold |
| CacheLedger.StripThenRestore | client/client.ts:134-152 | stripping a session and merging its own cache back restores it |
| ListLedger.InsertAll | client/internal.ts:105-109 | folding array entries into an object adds exactly the array's layers |
| ListLedger.ToMap | client/internal.ts:105-108 | the object an array reduces to has exactly the array's layers |
| ListLedger.InsertAllIsMerge | client/internal.ts:109 | folding an array into a map merges the array's map on top of it |
| ListLedger.ToMapAppend | client/internal.ts:105-109 | the map of `base ++ update` is the merge of their maps, with the later array winning |
| ListLedger.ToMapLastWins | client/internal.ts:105-109 | the last occurrence of a layer in an array decides its value |
| ListLedger.FilterWindow | client/internal.ts:88-91 | the filter keeps exactly the entries whose layer is in `[k, k+n)` |
| ListLedger.ReduceList | client/internal.ts:82-96 | under `Steps(k)` the reduced array has exactly the input entries with `k <= layer < k+n`; otherwise it is empty |
| ListLedger.FilterWindowAppend | client/internal.ts:88-91 | the filter keeps the original order: it distributes over concatenation |
| ListLedger.ReduceListAgrees | client/client.ts:113-132 | the array window and the map window send the same cache |
| ListLedger.Entries | client/internal.ts:110-112 | `Object.entries` lists every object entry once, with layers ascending |
| ListLedger.EntriesRoundTrip | client/internal.ts:110-112 | reading the map back from its entries gives the map |
| ListLedger.UpdateList | client/internal.ts:104-114 | the merged array has no duplicate layer; its layers are those of `base` and `update`; its map is the map merge with the update winning |
| ListLedger.UpdateListLastWins | client/client.ts:141-152 | the last occurrence of each layer in `base` followed by `update` is in the merged array |
| Remote.ChunkByte | deai_client/src/internal.rs:144 | the chunk size goes on the wire as one byte and is unchanged below 256 |
| ChunkDriver.Drive | deai_client/src/internal.rs:132-151 | a successful `forward` made at least one and at most `fuel` calls; it fails only by a failed call or by running out of fuel |
| ChunkDriver.FirstCall | deai_client/src/internal.rs:141-144 | the first forward call carries the given run and only the window of the cache for that run |
| ChunkDriver.DriveIsTrace | deai_client/src/internal.rs:139-150 | each call carries the run the previous reply returned and the window of the session folded so far; only the last reply has `fin`; the result is the last run and the left fold of the merge over all returned caches, with the input's non-cache fields |
| ChunkDriverLaws.FoldCachesKeys | client/internal.ts:71-78 | the folded cache holds exactly the starting layers and every returned layer |
| ChunkDriverLaws.FoldCachesLastWins | client/internal.ts:71-78 | a returned layer ends with the value of the last reply that carried it |
| ChunkDriverLaws.FoldCachesUntouched | client/client.ts:99-111 | a layer no reply carried keeps its starting value |
| ChunkDriverLaws.ForwardKeepsEntries | deai_client/src/internal.rs:139-150 | `forward` never drops a cache entry of its input session and changes nothing but the cache |
| ChunkDriverLaws.DriveFuelMonotone | deai_client/src/internal.rs:139-150 | more fuel than a successful `forward` needed gives the same result |
| ChunkDriverLaws.Resume | deai_client/src/internal.rs:139-150 | restarting `forward` after any call from the run and session reached so far gives the same final session and run, making the remaining calls |
| ChunkDriverLaws.Chunks | deai_client/src/internal.rs:136 | the chunk count is the ceiling of layers over chunk size |
| ChunkDriverLaws.DriveCallCount | deai_client/src/internal.rs:139-150 | if the backend advances a `Steps(k)` run by the sent chunk and finishes at the last layer, `forward` from layer `k` makes exactly ceil((layers-k)/n) calls |
| ChunkDriverLaws.FourLayersTwoCalls | deai_client/src/internal.rs:139-150 | with that backend, four layers in chunks of two take two calls |
| Phases.BeginAndForward | deai_client/src/internal.rs:119-123 | `begin_step` is sent the session with an empty cache and the input's logit processor and token stream; the first forward call carries the run it returned; the forwarded session keeps every layer of the input and all its non-cache fields |
| Phases.Step | deai_client/src/internal.rs:117-129 | a step fails only by a failed call or by running out of fuel |
| Phases.StepMergesBack | client/internal.ts:56-66 | the step returns `end_step`'s text, flag and non-cache state; its cache holds every layer of both sides, with the forwarded value winning on conflict |
| Phases.StepKeepsEntries | deai_client/src/internal.rs:117-129 | a decode step never drops a cache entry the client already held |
| Phases.LegacyStep | client/client.ts:86-97 | the older step fails only by a failed call or by running out of fuel; LegacyStepMergesBack states its result |
| Phases.LegacyStepMergesBack | client/client.ts:86-97 | the older step forwards with chunk 6, reads `end_step` as `[text, session]`, and returns that text with `end_step`'s session, whose cache holds every layer of both sides with the forwarded value winning on conflict |
| Phases.LegacyStepOnCurrentReply | client/client.ts:92-95 | against the three-field `end_step` reply the older step always fails, and it throws exactly when begin, forward and `end_step` all succeeded, because the end-of-sequence flag is used as the session and `updateSession` (line 143) reads its `k_v_caches` |
| Phases.StartIterative | client/internal.ts:30-54 | a successful ingestion used between one and `rounds` rounds, the first from the given session; an empty run fails with `NoRun` only in the Rust variant |
| Phases.StartIterativeIsTrace | client/internal.ts:30-54 | rounds chain session to session while `end_start` gives no text; the result is the first text with its session, or `""` with the pre-begin session when an empty run ends the phase (TypeScript only) |
| Phases.EmptyRunEndsWithInput | client/internal.ts:36-39 | in TypeScript an empty run from `begin_start` returns `""` and the session passed to `begin_start` |
| Phases.EmptyRunTrapsInRust | deai_client/src/internal.rs:94-97 | in Rust an empty run from `begin_start` is unwrapped and traps |
| Phases.StartRoundsMonotone | client/client.ts:62-83 | allowing more rounds than a successful ingestion needed changes nothing |
| Orchestrator.DecodeLoop | deai_client/src/internal.rs:211-226 | at most `cap` steps, each from the session the previous step returned; no step but the last has end-of-sequence; the loop stops at the cap or right after an end-of-sequence step |
| Orchestrator.Prompt | client/internal.ts:120-143 | the result is the ingestion text followed by the texts of the steps that had one, in order; ingestion starts from `start_prompt`'s session and decoding from ingestion's session |
| Orchestrator.Chat | deai_client/src/lib.rs:52-60 | `chat` runs the Rust prompt driver on the rendered chat template |
| Orchestrator.PromptUser | deai_client/src/lib.rs:42-50 | the library's `prompt` runs the Rust driver on the two-message chat built from the user text |
| Orchestrator.LegacyMain | client/client.ts:26-44 | `main` ingests its fixed prompt with chunk 15 and then makes exactly 100 steps, with no end-of-sequence check |
| Orchestrator.LegacySteps | client/client.ts:35-43 | `k` legacy steps log exactly `k` texts |
| OrchestratorLaws.StepChainAt | deai_client/src/internal.rs:211-213 | each step of the loop is the client's step from the session before it |
| OrchestratorLaws.ChainsAgree | deai_client/src/internal.rs:211-213 | two chains of steps from the same session agree on their common prefix |
| OrchestratorLaws.DecodeRunUnique | deai_client/src/internal.rs:211-226 | the decode loop's steps are determined by the backend and the starting session |
| OrchestratorLaws.StopsAtThirdStep | client/internal.ts:129-141 | if the third step reports end-of-sequence, the 100-step loop makes exactly three steps |
| OrchestratorLaws.JoinTextsAppend | client/internal.ts:128-142 | the texts of consecutive runs of steps concatenate |
| OrchestratorLaws.JoinTextsSnoc | deai_client/src/internal.rs:214-220 | a step with `Some(text)` appends it; a step with `None` adds nothing |
| ChatTemplate.RoleName | deai_client/src/lib.rs:13-26 | every role displays as a non-empty lower-case word |
| ChatTemplate.ParseRole | deai_client/src/lib.rs:13-26 | role names are `system`, `user` and `assistant`; each name reads back as its role |
| ChatTemplate.RenderMessage | deai_client/src/lib.rs:34-39 | a rendered message is as long as its header markers, role name, content and end-of-turn marker together |
| ChatTemplate.ParseMessage | deai_client/src/lib.rs:34-39 | whatever a string parses to renders back to that string |
| ChatTemplate.ParseRenderRoundTrip | deai_client/src/lib.rs:34-39 | parsing a rendered message gives back its role and content |
| ChatTemplate.RenderInjective | deai_client/src/lib.rs:34-39 | distinct messages render to distinct strings |
| ChatTemplate.RenderAll | deai_client/src/lib.rs:54 | the collected rendering is empty exactly when there are no messages, and a single message renders as itself |
| ChatTemplate.RenderChat | deai_client/src/lib.rs:54-56 | the prompt is the begin-of-text marker, then the rendered messages, then the open assistant header |
| ChatTemplate.RenderAllAppend | deai_client/src/lib.rs:54 | rendered messages appear in list order: rendering distributes over concatenation |
| ChatTemplate.RenderChatLength | deai_client/src/lib.rs:38-56 | the prompt's length is the prefix length, plus each rendered message's length, plus the suffix length |
| ChatTemplate.EmptyChat | deai_client/src/lib.rs:54-56 | with no messages the prompt is the prefix followed by the assistant header |
| ChatTemplate.PromptMessages | deai_client/src/lib.rs:44-48 | `prompt` builds exactly two messages: the System message with the fixed instruction, then the User message with the caller's text |
| ChatTemplate.PromptText | deai_client/src/lib.rs:42-56 | the exact prompt string for a user text |

## Left out

- Transport: `ic_cdk::call`, `createActor`, canister ids, and dotenv host selection are not modelled. A failed call is the `CallFailed` error.
- Output: progress bars, `console.log`, `process.stdout.write` and `ic_cdk::println!` are output only.
- Tensor contents and sampling parameters are opaque bit patterns. No floating-point arithmetic is modelled.
- The commented-out Rust `start` and the TypeScript `start` functions are not modelled. They are dead code, and the `client/client.ts` copy calls `end_step` where `end_start` is meant.
- `HashMap` iteration order is not modelled. The map merge does not depend on it, which `CacheLedger.MergeByInsertion` shows.
- The BigInt/Number key conversion of the TypeScript merge is not modelled. Layer keys are small naturals, so the conversion is exact.
- Deep cloning in the TypeScript window and strip is not modelled. Dafny values are immutable, so a caller's session can never change.
- The TypeScript `updateSession` assigns the merged array into `base` in place. That aliasing does not change any returned text, so it is not modelled.
- Layer keys and `k + n` are unbounded naturals. A `usize` overflow of `current_step + steps_n` would need a layer index near 2^64.
- ChunkDriver.Drive: `forward` loops until `fin` with no bound. The model stops after `fuel` calls with `OutOfFuel`. `ChunkDriverLaws.DriveFuelMonotone` shows that extra fuel never changes a result.
- Phases.LegacyStep: `client/client.ts` is modelled against an older two-field `end_step` reply, `[text, session]`. Against the current three-field reply `(text, eos, session)` its `step` throws, which `Phases.LegacyStepOnCurrentReply` states, so its `main` fails at its first decode step; `Orchestrator.LegacyMain` describes only the two-field backend.
- Phases.StartIterative: `start_iterative` likewise has no bound on its rounds. The model stops after `rounds` rounds, and `Phases.StartRoundsMonotone` shows that extra rounds never change a result.
- The backend's own guarantees are outside the client. Examples are the number of forward calls per pass and that prompt progress advances. They appear only as the explicit assumption `ChunkDriverLaws.AdvancesByChunk`.
- Orchestrator.Chat, Orchestrator.PromptUser: the returned text is stated through the prompt driver. The `println!` of the rendered prompt is not modelled.

# Verification of llama_cpp_canister

This project models, in Dafny, the parts of llama_cpp_canister that carry state
from one canister call to the next, and proves what the repository promises
about them. `dafny verify dfyconfig.toml` checks everything.

## The system in its own terms

**The decode engine** (`KvMemory`, `EngineSpec`, `EngineSteps`, `EngineClamp`,
`EnginePass` and `Engine` for the loop; `EngineStream`, `EngineAhead`, `EngineLag`,
`EngineTheorems`, `EngineRoom`, `EngineLimits`, `EngineKeep`, `EngineCounts`,
`EngineIngest` and `EngineBoundary` for its promises; `Wrappers` and `Arithmetic` are shared). One run call loads a session
file, matches it against the prompt, trims the attention memory, and then
alternates between fetching prompt tokens, reusing saved ones, decoding and
sampling, until a token budget, `n_predict`, the context or an end-of-generation
token stops it; then it writes the session file back. `Engine.Canister` is that
loop, method by method, with the variables of `main_` as fields. `EngineSpec.Call`
says what one call does without batches or chunks: the prompt half is a closed
form and the generation half one recursion per sampled token. The loop is proved
to compute exactly `Call`; everything promised to users is proved about `Call`.

**Self-Extend** (`SelfExtend`) is the position arithmetic the same loop runs when
`ga_n` is not 1.

**Prompt-cache provenance** (`PromptCache`): cache files and their stamp files, the
endpoints that create, copy, overwrite and delete them, and model changes in
between. Files remember who wrote them, so "the loader never sees foreign bytes"
is a statement about runs of endpoint steps.

**File transfer** (`LittleEndian`, `Metadata`, `Upload`, `Transfer`, `Cleanup`): the
byte-encoded index of uploaded files, chunked upload with its streaming hash,
chunked download, the two command-line clients with retries, and the capped
cleanup walk. **Saved chats** (`Chats`) is the newest-three store, and **GGUF headers**
(`Gguf`) the recursive metadata reader.

## What is assumed, and what turned out not to hold

* Sampling is a function `next` of the tokens held in memory, so two calls that
  hold the same tokens sample the same token. A call that decodes nothing before its
  first sample takes that sample from the logits saved in the dump, which follow all
  its cells, whatever was trimmed (`src/main_.cpp:494-496`, `:636`, `:1127`): on a
  file that does not agree with its dump that first token can be another one than the
  model's. `ProtocolStaysOnStream` and `SplitsAgree` are about agreeing files only,
  and do not depend on it. A batch is decoded at the positions
  after the highest one in use, and fails when the cells exceed the context.
  `llama_memory_seq_rm`, `_add` and `_div` act on position ranges; removal succeeds.
* A prompt that is a proper prefix of the saved session has its last token decoded
  twice (`src/main_.cpp:651-658`). The file then records one token fewer than the
  memory holds; `RedecodeExample` is an instance.
* Such a call can also fail under context shift. The cell too many lies at position
  n_past, which `src/main_.cpp:933-935` does not move, so all later tokens land above
  it and out of reach of every further shift. The first two shifts drop as many cells
  as any, and the third at most one: `RedoCallFailsIff` says after exactly how many
  decodes there is no cell left, and `RedecodeFailsExample` is an instance.
* A resumed call skips the prompt length check (`src/main_.cpp:592-603`), so the
  clamp at `src/main_.cpp:896-904` can cut its first chunk. `ClampCutsIff` shows when:
  the session leaves fewer than four places free, and so does the batch. What is cut
  off stays unread in the session. The next tokens are then compared with it: one
  that repeats the session is passed over without being decoded, and the first one
  that does not cuts the session, while the memory keeps its cells. `ClampExample`
  is an instance. `Call` models all of this, and `Run` needs no guard against it.
* `AgreementAfterCall` shows that memory and session file agree after a call if and
  only if it started from faithful cells, did not re-decode, and did not cut its
  session (`Cuts`). `SmallNeverClamps` gives conditions on the session or the batch
  under which no call cuts. `Accounting` counts re-decoded tokens and tokens passed
  over exactly, since `n_tokens_generated` includes the former and not the latter.
* `Bounded` is what makes a call end whatever the model samples: `n_predict` is not
  0, and there is a token budget, a positive `n_predict`, or a stop when the
  context is full. An unlimited call with infinite `n_predict` and context shift
  ends only if the model produces an end-of-generation token.
* A shift of a context that has just become full frees a place only if the kept
  prefix leaves two tokens to drop (`ShiftFreesRoom`). With one token to drop no
  decode ever fails either, because the shift after the next place does free it. With
  none, a call fails once it has filled the context: `PlainCallFailsIff` is the exact
  condition, and `KeepAllFailsExample` an instance. `CallFailsIff` gives the condition
  for every call, those that re-decode, are clamped or cut their session included, and
  `CallSavesIff` the one under which a call gets to its final save.
* README-qwen3-1.7B.md:279-298 says that every generation call after the first
  repeats the previous call's last token. The code does so exactly when, of the
  samples that `n_predict` and the context let the previous call decode, none spent
  its token budget and none was an end-of-generation token: `LeavesIff` is that
  condition on its arguments, `DanglingSample` what follows from it, and
  `NoRepeatExample` two calls of which the second repeats nothing.
* The save at the first sample (`src/main_.cpp:1113-1122`) writes no stamp. A call
  that never reaches its final save can therefore leave its bytes beside a stamp
  that `new_chat` wrote for another model. `EarlySaveHonest` shows exactly when that
  breaks a stamp, `SavesEarlyOnlyIff` which calls end that way (those that take new
  prompt tokens and generate on past a full context), and `EarlySaveExample` is a run
  in which the loader is given another model's bytes. `StampSafety` assumes such a
  call away, and `CallIsAllowed` says exactly which calls it covers: all of them
  without context shift.
* With `add_bos`, an `n_keep` equal to the length of the input keeps one token more
  than that, the first one sampled (`src/main_.cpp:661-665`): `CallKeepsPrefix` states
  what it keeps of the input.
* Caches of another format are as safe as those of another model (`UpgradeIsSafe`),
  as long as their stamps name the format that wrote them.
* `src/cache_cleanup.h:5-7` says the next tick continues the cleanup; the code
  starts again at the front of the walk. Piles of stale files still drain in the
  rounded-up number of runs, but a stale file behind `cap` fresh ones is never
  reached (`OutlivesIff`).
* Cutting a GGUF header short is noticed everywhere except inside a text that ends
  the last value, because `f.read(n)` may return less than `n` bytes (`HeaderOfCut`).
* The metadata file is read back whole if and only if no name is longer than 4096
  bytes and no hash longer than 64 (`LoadsBackIff`). A record with a longer name is
  always the last one, and is gone at the next load (`UpdateMetadata`).
* Two chats created in the same second share a file name, and the second one
  replaces the first (`NewChat`).
* The sending client sends an empty file as no chunk at all, and then reports a
  mismatch (`Send`).
* A file is opened for truncation only at offset 0.

## Model

| member | source | states |
|---|---|---|
| Engine.Canister.Run | src/main_.cpp:470-1499 | the whole call, batches and chunks included, replies and leaves the session file exactly as the closed-form specification Call says; every llama_decode gets 1 to n_batch tokens, and their sum stays within the budget |
| Engine.Canister.Load | src/main_.cpp:484-606 | which calls are rejected before the loop, with which code, and otherwise which session, memory and input tokens they start from |
| Engine.Canister.MatchPrefix | src/main_.cpp:613-621 | the scan computes the length of the longest common prefix of session and prompt |
| Engine.Canister.Match | src/main_.cpp:635-665 | the trim, the drop of a session tail that a shorter prompt leaves, and the effective n_keep |
| Engine.Canister.MakeRoom | src/main_.cpp:891-945 | the clamp on embd, the two ways to stop at a full context, and the context shift with its cleared session path |
| Engine.Canister.TakeHeld | src/main_.cpp:979-1010 | the reuse loop consumes exactly the longest common prefix of embd and the unread session, and cuts the session at a mismatch |
| Engine.Canister.DecodeEmbd | src/main_.cpp:1015-1091 | as much of embd as the budget allows is decoded, in one batch within n_batch, or none of it; what is left over means the budget is spent; a budget stop appends what was decoded to the session unless read-only |
| Engine.Canister.DecodeBatch | src/main_.cpp:1026-1091 | one llama_decode: refused without room, otherwise counted, and followed by the budget and eog check |
| Engine.Canister.DecodeAndRecord | src/main_.cpp:1015-1101 | after decoding, memory and session have grown by the same tokens whichever branch recorded them |
| Engine.Canister.SampleNext | src/main_.cpp:1111-1139 | the sampled token follows the tokens in memory; the first sample saves the session first, if a save is due |
| Engine.Canister.FetchPrompt | src/main_.cpp:1146-1178 | the fetched chunk is the next slice of the prompt, within one batch, ending at a full batch, the budget past the cached prefix, or the end |
| Engine.Canister.Supply | src/main_.cpp:1109-1436 | one sample, or the next chunk of the prompt, ending where FetchPrompt says |
| Engine.Canister.Step | src/main_.cpp:888-1448 | one pass keeps the loop invariant, brings the call nearer its end, or leaves the loop in the specified final state |
| Engine.Canister.Loop | src/main_.cpp:888-1448 | the loop terminates for every model, and only in the specified final state |
| EngineSteps.ChunkReuse | src/main_.cpp:979-1010 | in a fetched chunk the session holds exactly the part before the reused length |
| EngineSteps.RecordedTakes | src/main_.cpp:1069-1101 | after any chunk, exactly the prompt up to the chunk's end is in memory and session, with no token lost or decoded twice |
| EngineSteps.TakenIsPrefill | src/main_.cpp:1146-1178 | however the prompt was cut into chunks, the state reached is the closed form |
| EngineSteps.AfterWaiting | src/main_.cpp:891-1101 | a sampled token meets a full context, is shifted past, decoded, or refused, as the specification says |
| EngineClamp.FirstHalfOfFirst | src/main_.cpp:893-1010 | of a clamped first chunk, exactly n_ctx - 4 tokens are passed over and the rest is forgotten |
| EngineClamp.FirstHalfOfLate | src/main_.cpp:979-1101 | the chunk after it meets the session at the wrong place, and is passed over or decoded again behind a cut |
| EngineClamp.FirstHalfOfLag | src/main_.cpp:979-1101 | a token sampled while session tokens are unread is passed over if it repeats the session, and otherwise cuts it |
| EnginePass.ClampCutsIff | src/main_.cpp:592-603 | the clamp on embd cuts the first chunk of a prompt if and only if a resumed session and the batch both exceed n_ctx - 4 |
| EnginePass.PassLaw | src/main_.cpp:888-1448 | every pass leads from one loop-head state to another that is closer to the end |
| EnginePass.EndedIsCall | src/main_.cpp:1455-1499 | the final save and the counts put on the wire are those of the specification |
| EngineSpec.Lcp | src/main_.cpp:613-621 | two sequences agree up to this length and differ right after it |
| EngineSpec.PlanIsValid | src/main_.cpp:608-665 | after trimming, the memory is the cached part of the loaded one, and session and prompt agree on the reused part |
| EngineSpec.OutcomeWithinBudget | src/main_.cpp:1068-1069 | no call decodes more than max_tokens tokens |
| EngineTheorems.InputIs | src/main_.cpp:549-588 | the input of a call is its prompt, the saved session in place of an empty prompt, or a lone beginning-of-stream token |
| EngineTheorems.RejectedIs | src/main_.cpp:484-606 | which of the three reasons refuses a call, whatever its session file holds |
| EngineTheorems.RejectedCall | src/main_.cpp:484-606 | a refused call replies with the code of the reason, without counts or samples, and leaves its session file alone; any other replies with 0 or 1 |
| KvMemory.DecodeInTwo | src/main_.cpp:1033-1042 | decoding in two batches leaves the same memory as decoding in one |
| KvMemory.DecodeHolds | src/main_.cpp:1033-1042 | decoding appends the batch at the next positions of an ordered memory |
| KvMemory.SeqRmTail | src/main_.cpp:635-637 | removing positions from m on keeps exactly the first m cells |
| KvMemory.CutAndClose | src/main_.cpp:933-937 | removing a slice and moving the later cells down leaves positions 0, 1, 2, ... and the other tokens in order |
| EngineStream.GenFollowsStream | src/main_.cpp:1015-1139 | a generation either extends memory and session along the ideal stream by the tokens it sampled, or has shifted and leaves the session file alone |
| EngineStream.GenWithoutPath | src/main_.cpp:943-944 | after a shift has cleared the session path, no later step touches the session file |
| EngineLag.LagFollowsStream | src/main_.cpp:979-1101 | sampling with session tokens unread extends the memory along the stream, and the session by the same tokens exactly unless it gets to a token that does not repeat the session |
| EngineLag.ClampedFollows | src/main_.cpp:893-1101 | a clamped call that keeps its session path either grows memory and session along the stream, or records fewer tokens than it holds cells |
| EngineTheorems.PrefillShape | src/main_.cpp:1146-1178 | after the prompt, memory holds the trimmed cells then the taken prompt tokens, with one extra cell only in the re-decode case |
| EngineTheorems.AgreementAfterCall | src/main_.cpp:1455-1459 | for every loaded session, prompt, batch size and budget, the written tokens equal the tokens in memory if and only if the call started from faithful cells, re-decoded no token, and did not cut its session after the clamp |
| EngineTheorems.AgreementAtFirstSample | src/main_.cpp:1113-1122 | what the save at the first sample writes agrees if and only if the call started from faithful cells |
| EngineTheorems.SmallNeverClamps | src/main_.cpp:893-904 | a call with a prompt, a session that leaves four places free, or a batch that does, is never clamped |
| EngineTheorems.RedecodeExample | src/main_.cpp:651-658 | a session a, b, d and the prompt a, b leave a file of two tokens beside three cells |
| EngineTheorems.ClampExample | src/main_.cpp:893-904 | seven resumed tokens under n_ctx and n_batch 8 leave a file of five tokens beside eight cells |
| EngineTheorems.CallFile | src/main_.cpp:1113-1122 | the session file after a call is the final state, the state at the first sample, or the file as it was |
| EngineTheorems.ReadOnlyLeavesFile | src/main_.cpp:1455-1464 | a read-only call, or one without a session path, leaves the session file as it was |
| EngineTheorems.CallStaysUsable | src/main_.cpp:484-500 | whatever a call writes, later calls can load |
| EngineTheorems.SavedTokens | src/main_.cpp:1455-1459 | the saved tokens are the taken prompt followed by as many stream tokens as were generated, in every call that neither re-decodes nor cuts |
| EngineTheorems.CallStaysOnStream | README.md:453-469 | one call of the protocol keeps the session file, tokens and memory, a prefix of the ideal stream if and only if it does not save a cut session |
| EngineLimits.StaysOnStreamIff | README.md:453-469 | the same on the arguments of the call: it cuts its session, and budget, n_predict, an end-of-generation token or the full context stop it before it runs out of places |
| EngineTheorems.SmallBatchProtocol | README.md:453-469 | with a batch that leaves four places free, any calls a client makes are calls of the protocol |
| EngineTheorems.ProtocolStaysOnStream | README.md:453-469 | over any sequence of calls with any budgets, the session file is a prefix of the one stream P, next(P), ... |
| EngineTheorems.SplitsAgree | README.md:453-469 | any two ways of splitting the work that get equally far leave identical session files |
| EngineRoom.ShiftKeepsOrder | src/main_.cpp:926-937 | a shift keeps the first n_keep tokens, drops the next half, keeps the rest in order, and renumbers positions from 0 |
| EngineRoom.ShiftFreesRoom | src/main_.cpp:912-937 | a shift of a just-full context discards a token and makes room if and only if 0 <= n_keep <= n_ctx - 3 |
| EngineRoom.GenHasRoom | src/main_.cpp:912-945 | with 0 <= n_keep <= n_ctx - 2, every decode of every run fits the context and the kept prefix survives every shift |
| EngineKeep.CallKeepsPrefix | src/main_.cpp:661-665 | however often a call of any kind shifts its context, its memory still starts with the first n_keep tokens of its input, n_keep + 1 with add_bos, or all of it for an n_keep below 0 or beyond it |
| EngineKeep.CallShiftDrops | src/main_.cpp:926-937 | each shift of such a call drops exactly half of the tokens behind those |
| EngineRoom.GenOverrunsIff | src/main_.cpp:912-945 | a generation loses its session path, or fails, if and only if neither n_predict, budget, an end-of-generation token nor a stop at a full context ends it within the places left |
| EngineRoom.SavesEarlyOnlyIff | src/main_.cpp:1113-1122 | a call saves at its first sample and not at its end if and only if it takes new prompt tokens and generates on past a full context |
| EngineAhead.UnspentIsStream | src/main_.cpp:1068-1091 | until a shift is needed, what a generation samples if nothing stops it is the ideal stream |
| EngineLimits.OnwardSplit | src/main_.cpp:926-945 | behind a cell that shifts do not reach, every sample uses up exactly one of the free and the droppable cells |
| EngineLimits.InOrderFailsIff | src/main_.cpp:912-945 | from a memory in order a decode fails if and only if n_keep >= n_ctx - 1, context shift is on, and one token more than there are places left is decoded with a sample to follow |
| EngineLimits.GenFailsIff | src/main_.cpp:912-945 | the same for a memory with more cells than n_past: exactly when every free and every droppable cell is used up |
| EngineLimits.LagIsGen | src/main_.cpp:979-1010 | a clamped call that meets its session again goes on as a generation from where the session stops repeating the sampled token |
| EngineLimits.CallFailsIff | src/main_.cpp:1033-1040 | any call replies with an error from its loop if and only if its arguments and file make it decode more than there are cells for |
| EngineLimits.PlainCallFailsIff | src/main_.cpp:1033-1040 | for a call that re-decodes nothing and is not clamped: n_keep leaves no token to spare, and nothing stops it before a full context and one token more |
| EngineLimits.RedoCallFailsIff | src/main_.cpp:651-658 | for a call that decodes its last prompt token twice: nothing stops it within the free cells and, if n_keep <= n_ctx - 3, the n_ctx - 1 - n_keep cells that all its shifts together can drop |
| EngineLimits.RedecodeFailsExample | src/main_.cpp:933-935 | n_ctx 8, session 1, 2 and prompt 1 with context shift: the fourteenth sample finds no cell |
| EngineLimits.KeepAllFailsExample | src/main_.cpp:926-931 | n_ctx 8, seven resumed tokens all kept, context shift on: the second sample finds no cell |
| EngineLimits.CallHasRoom | src/main_.cpp:1033-1040 | with 0 <= n_keep <= n_ctx - 2, a call that re-decodes nothing and cuts no session never fails in the loop |
| EngineLimits.CallEndsInOrder | src/main_.cpp:926-945 | such a call, if it is not clamped, ends with its cells at positions 0 .. n_past - 1, within the context |
| EngineLimits.CallSavesIff | src/main_.cpp:1455-1464 | any recording call reaches its final save if and only if its arguments and file stop it before it runs out of places |
| EngineLimits.CallReachesSave | src/main_.cpp:912-924 | a call that stops at a full context instead of shifting, and cuts no session, always reaches its final save |
| EngineCounts.GenIsCounted | src/main_.cpp:1068-1139 | every sampled token is decoded, except one last token when the loop ends before it, and the flag is raised exactly by sampled end-of-generation tokens |
| EngineCounts.LagIsCounted | src/main_.cpp:979-1139 | the same with session tokens unread, less the samples passed over |
| EngineCounts.Accounting | src/main_.cpp:1492-1499 | cached + decoded + remaining = n_prompt_tokens, no count is negative, nothing is generated before the prompt is ingested, and n_tokens_generated is the decoded samples, plus tokens decoded again, less samples passed over |
| EngineCounts.CountsAre | src/main_.cpp:1492-1499 | n_prompt_tokens is the length of the input, the cached count that of its common prefix with the saved session, and the remaining count what the budget leaves |
| EngineCounts.EogFlag | src/main_.cpp:1424-1436 | generated_eog is set exactly by a sampled end-of-generation token or by a fully taken prompt that ends with one |
| EngineIngest.IngestCall | src/main_.cpp:1164-1166 | re-sending a prompt decodes min(M, tokens left) and saves exactly that much more |
| EngineIngest.ResendProgress | src/main_.cpp:1069-1090 | after k calls, k budgets of the prompt are cached |
| EngineIngest.IngestionProgress | src/main_.cpp:1492-1499 | the counts of the k-th call, and that the prompt is finished after exactly ceil((P - m0) / M) calls |
| EngineBoundary.ResumeSamplesNext | src/main_.cpp:555-565 | a resumed call samples first the token that follows the saved session |
| EngineBoundary.CleanOutput | src/main_.cpp:1127-1139 | what a call samples, with its whole prompt or resumed, is what it adds to the session, then its dangling sample |
| EngineBoundary.GenBreaksIff | src/main_.cpp:1068-1091 | a generation that keeps its session path ends behind its last sample if and only if the budget or an end-of-generation token is spent on a sample that n_predict and the context let it decode |
| EngineBoundary.LeavesIff | src/main_.cpp:1068-1139 | a call ends with an undecoded sample if and only if its prompt, what is cached of it, n_predict, budget and context leave one |
| EngineBoundary.DanglingSample | README-qwen3-1.7B.md:279-298 | a call, with a prompt or resumed, returns what it saved, and behind that one sample that the next call repeats first, if and only if its arguments make it leave one |
| EngineBoundary.NoRepeatExample | README-qwen3-1.7B.md:279-298 | two calls with a budget of one token: the second does not repeat the token of the first |
| EngineBoundary.CallReachesPredict | src/main_.cpp:888-1139 | a call with room, budget and no early end-of-generation token ends by n_predict after exactly n_predict samples |
| EngineBoundary.DropFirstsAdds | README-qwen3-1.7B.md:279-298 | dropping the first token of every later piece leaves exactly what those calls added |
| EngineBoundary.StitchedIsStream | README-qwen3-1.7B.md:279-298 | the stitched outputs of a call with its prompt, and of the calls that resume it, are the ideal stream after the prompt |
| EngineBoundary.StitchedIsOneCall | README-qwen3-1.7B.md:279-298 | any split tells the client the same tokens as one long call on the same input |
| SelfExtend.FoldOnce | src/main_.cpp:949-967 | the three position updates take every token from its k-window position to its (k+1)-window position |
| SelfExtend.NextPosFolded | src/main_.cpp:969-971 | the next free position after k windows is n_past |
| SelfExtend.GroupAttention.FoldWindow | src/main_.cpp:948-975 | one loop iteration folds one window, keeps the tokens, and brings n_past - ga_i down by ga_w |
| SelfExtend.GroupAttention.Extend | src/main_.cpp:948-975 | the loop terminates with every complete window folded and no other |
| SelfExtend.GroupAttention.Decode | src/main_.cpp:1033-1042 | new tokens land at n_past, n_past + 1, ... |
| SelfExtend.GroupAttention.Pass | src/main_.cpp:948-1042 | after any number of passes token i sits at i / ga_n in folded windows and at i - k (ga_w - ga_w / ga_n) after them |
| PromptCache.StampRoundTrip | src/promptcache.cpp:64-122 | the stamp check reads back the model name that was stamped |
| PromptCache.VouchingText | src/promptcache.cpp:64-85 | a stamp that vouches under any model starts with the format of this build on a line of its own |
| PromptCache.ThisFormatVouches | src/promptcache.cpp:64-85 | the stamp of this format and a model vouches under that model only, or under any while none is loaded |
| PromptCache.OtherFormatVouchesNot | src/promptcache.cpp:70-72 | the stamp of another format vouches under no model |
| PromptCache.EarlySaveHonest | src/main_.cpp:1113-1122 | a first-sample save keeps every stamp honest if and only if it does not land beside another model's orphan stamp |
| PromptCache.EarlySaveExample | src/main_.cpp:1113-1122 | a call that outgrows its context under one model leaves bytes that the loader is given under another, from an empty canister on |
| PromptCache.StepEffects | src/promptcache.cpp:223-327 | what new_chat, load_model, remove, copy, upload and cleanup steps leave in the files, path by path |
| PromptCache.StepHonest | src/promptcache.cpp:87-151 | every endpoint step keeps every stamp naming the writer of the cache beside it |
| PromptCache.HonestLoadsOwn | src/main_.cpp:477-496 | with honest stamps, what llama_state_load_file is given was written by this format with the loaded model |
| PromptCache.StampSafety | src/promptcache.cpp:124-151 | over every run of new_chat, load_model, run, remove, copy, upload and cleanup steps, every load is given own bytes |
| PromptCache.FreshIsSafe | src/promptcache.cpp:124-151 | so it is from a canister without files and model |
| PromptCache.UpgradeIsSafe | src/promptcache.cpp:124-151 | so it is from a canister whose caches and stamps were written by any mixture of formats and models |
| PromptCache.OldFormatIsDiscarded | src/promptcache.cpp:124-151 | a cache stamped by another format is not loaded, and is deleted with its stamp |
| PromptCache.EarlyEndIff | src/main_.cpp:1113-1122 | a run step ends at its first save if and only if its arguments make it outgrow the context |
| PromptCache.CallIsAllowed | src/main_.cpp:1113-1122 | StampSafety covers a call if and only if it does not outgrow the context on top of another model's orphan stamp; without context shift it covers every call |
| PromptCache.RunIsCall | src/main_.cpp:1455-1464 | a run step leaves in the cache file what the decode engine's call leaves in its session file |
| PromptCache.SessionPathsApart | src/promptcache.cpp:153-187 | two names lead to one cache file if and only if they are the same caller's and differ only in leading slashes |
| PromptCache.SessionPathIs | src/promptcache.cpp:153-187 | the path is the caller's folder and the name without its leading slashes; no name has no path |
| PromptCache.SaveRestoreStaysWarm | src/promptcache.cpp:98-113 | copy away, remove, copy back, new_chat leaves the same bytes and stamp, not discarded; between removal and restore the loader is given nothing |
| PromptCache.RestoredCallIsSame | src/promptcache.cpp:314-327 | the next run on a restored cache replies as on the original, cached count included |
| PromptCache.CacheStore.FormatIsCurrent | src/promptcache.cpp:64-85 | reading the stamp line by line decides whether it vouches for this format and the loaded model |
| PromptCache.CacheStore.WriteFormatStamp | src/promptcache.cpp:115-122 | afterwards the stamp vouches for the cache under the loaded model and under no other; no other path changes |
| PromptCache.CacheStore.RemoveFormatStamp | src/promptcache.cpp:87-96 | afterwards nothing vouches for the cache under any model; no other path changes |
| PromptCache.CacheStore.CopyFormatStamp | src/promptcache.cpp:98-113 | afterwards the target is vouched for under exactly the models the source was; no other path changes |
| PromptCache.CacheStore.Discard | src/promptcache.cpp:124-151 | cache and stamp are deleted exactly when the cache exists and its stamp does not vouch for it; otherwise nothing changes |
| PromptCache.CacheStore.StartChat | src/run.cpp:87-112 | a cache that is vouched for stays untouched; otherwise none is left, and a stamp of the loaded model is |
| PromptCache.CacheStore.RemovePromptCache | src/promptcache.cpp:225-248 | if the cache exists, neither cache nor stamp is left; if not, nothing changes; no other path changes |
| PromptCache.CacheStore.CopyPromptCache | src/promptcache.cpp:295-327 | the target has the bytes of the source and is vouched for under the same models; the error cases, of which copying a cache onto itself loses it |
| PromptCache.CacheStore.UploadPromptCacheChunk | src/promptcache.cpp:401-407 | the uploaded bytes lie at the path, and no run under any model is ever given them; no other path changes |
| PromptCache.CacheStore.RunUpdate | src/main_.cpp:472-496 | the loader is given the cache exactly when a stamp vouches for it under the model now loaded; what the call saves lies at the path, vouched for exactly after a final save; no other path changes |
| LittleEndian.ValueOfEncode | src/upload.cpp:54-74 | a fixed-width integer reads back as written |
| LittleEndian.ValueOfBytes | src/upload.cpp:54-74 | one, two, four and eight bytes written out, the lowest first |
| Metadata.LoadOfSave | src/upload.cpp:81-129 | loading what was saved gives the longest prefix whose records respect the size limits |
| Metadata.LoadsBackIff | src/upload.cpp:95-126 | the list is read back whole if and only if no name is longer than 4096 bytes and no hash longer than 64 |
| Metadata.RecordLayout | src/upload.cpp:54-74 | the bytes on disk: the number of records, then of each name size, name, size, hash size and hash |
| Metadata.ToMapErase | src/upload.cpp:171-177 | erasing a record erases exactly its name from the map the list stands for |
| Upload.Store.SaveMetadata | src/upload.cpp:47-78 | the file written is the byte encoding of the whole list |
| Upload.Store.ReadRecord | src/upload.cpp:97-125 | where an encoded record starts, that record is read back, or refused exactly if it is oversized |
| Upload.Store.LoadMetadata | src/upload.cpp:81-129 | the loop reads the records up to the count or the first oversized one; a missing file leaves the list alone |
| Upload.Store.UpdateMetadata | src/upload.cpp:132-151 | the index, kept as bytes, behaves as a map: exactly one binding is set, or none at all for a name too long to be read back |
| Upload.Store.GetMetadata | src/upload.cpp:154-164 | lookup in that map |
| Upload.Store.DeleteMetadata | src/upload.cpp:168-179 | removal from that map, and whether the name was there |
| Upload.Store.UploadChunk | src/upload.cpp:216-320 | files, sessions, index and reply after a chunk, for all its error cases |
| Upload.Store.AcceptChunk | src/upload.cpp:285-312 | a new chunk is written at its offset, hashed and recorded, unless its end overflows 64 bits |
| Upload.Store.AlreadyHandled | src/upload.cpp:258-284 | a repeated chunk is answered from the index without writing |
| Upload.WriteAtIs | src/upload.cpp:285-295 | byte by byte, a chunk replaces what it covers, keeps what lies around it, and leaves zeros in a gap |
| Upload.RefusedChunk | src/upload.cpp:216-256 | a chunk size above 2 MiB changes nothing; a chunk without a name touches neither files nor index |
| Upload.StartingChunk | src/upload.cpp:231-312 | a chunk at offset 0 makes file, hash and record those of the chunk alone |
| Upload.RepeatedChunk | src/upload.cpp:258-284 | a chunk at the offset handled last is answered from the index, and nothing is written |
| Upload.WrittenChunk | src/upload.cpp:285-312 | any other chunk is written at its offset, and hash and record go on from the session, unless its end does not fit 64 bits |
| Upload.OtherFilesUnaffected | src/upload.cpp:231-238 | a chunk leaves every other file, session and record as it was |
| Upload.AtLeastOnce | src/upload.cpp:231-312 | chunks in order, each one or more times, interleaved with anything for other files, leave exactly the arrived chunks, their size and hash |
| Upload.CompleteDelivery | src/upload.cpp:258-312 | a complete such delivery leaves the file, size and hash of the concatenation |
| Transfer.DownloadChunk | src/download.cpp:47-83 | the chunk is the requested range of the file as far as the file goes, refused above 2 MiB, and done is true exactly when it reaches the end, in 64-bit arithmetic |
| Transfer.Receive | scripts/download.py:87-128 | the client's loop terminates and returns the file byte for byte, or fails exactly on a missing file or an oversized chunk |
| Transfer.GenerateChunks | scripts/upload.py:44-47 | the chunks concatenate to the data, all of the chunk size but the last, none empty |
| Transfer.Deliver | src/upload.cpp:258-320 | an attempt that reaches the canister leaves the chunk in place whether it is the first or a repetition, and answers with the record |
| Transfer.SendChunk | scripts/upload.py:156-215 | a chunk is delivered at least once and answered if and only if one of ten attempts is |
| Transfer.Send | scripts/upload.py:156-233 | the client reports success if and only if there is a chunk and each was answered, and then the stored file, size and hash are the data's |
| Transfer.RoundTrip | scripts/download.py:87-128 | a file uploaded with one chunk size and downloaded with another comes back unchanged |
| Cleanup.CleanTreeFiles | src/cache_cleanup.cpp:135-222 | a run examines the first min(cap, total) regular files in walk order and removes exactly the stale ones among them |
| Cleanup.FilesAre | src/cache_cleanup.cpp:139-177 | the files of the walk are the regular entries of the sessions folders, and nothing else |
| Cleanup.RunSweeps | src/cache_cleanup.cpp:193-212 | of the first cap files exactly those younger than ttl are left, the others are gone with their records, and every other file and record stays |
| Cleanup.CleanTreeKeepsOthers | src/cache_cleanup.cpp:139-177 | folders and entries that are not regular files are left alone |
| Cleanup.StalePileDrains | src/cache_cleanup.cpp:109-112 | N stale files are gone after exactly ceil(N / cap) runs |
| Cleanup.RunsSettle | src/cache_cleanup.cpp:109-112 | repeated runs settle on the fresh files and those that cap fresh files hide |
| Cleanup.OutlivesIff | src/cache_cleanup.cpp:109-112 | a file outlives every run if and only if it is younger than ttl or cap files before it are |
| Cleanup.Cleaner.CleanSessions | src/cache_cleanup.cpp:166-217 | the inner loop within what is left of the cap |
| Cleanup.Cleaner.DeleteFile | src/cache_cleanup.cpp:200-212 | file and record of the path are deleted together, and nothing else |
| Cleanup.Cleaner.Walk | src/cache_cleanup.cpp:135-222 | the nested walk leaves the specified tree, files and index, and counts what it did |
| Cleanup.Cleaner.Run | src/cache_cleanup.cpp:113-241 | a whole run with its statistics: it sweeps by age as RunSweeps says, and without a cache folder it changes nothing |
| Chats.SortedListing | src/db_chats.cpp:146-154 | whatever order the directory is listed in, sorting by write time gives the chats newest first |
| Chats.KeepNewest | src/db_chats.cpp:155-165 | deleting from the fourth on leaves the newest three, all at least as recent as what was deleted |
| Chats.LatestIsLast | src/db_chats.cpp:201-209 | the most recently written file is the chat created last |
| Chats.NewestNamed | src/db_chats.cpp:146-165 | cleaning after every new chat keeps the newest three of all chats ever created |
| Chats.ChatStore.List | src/db_chats.cpp:127-143 | every chat is listed once, in no particular order |
| Chats.ChatStore.SortNewestFirst | src/db_chats.cpp:146-154 | the same listing, most recent first |
| Chats.ChatStore.Clean | src/db_chats.cpp:108-168 | exactly the three most recently written chats are kept, unchanged |
| Chats.ChatStore.NewChat | src/db_chats.cpp:75-106 | an empty chat named by the creation second is added, in place of one of the same second |
| Chats.ChatStore.StartChat | src/run.cpp:45-58 | over any sequence of steps the store holds exactly the newest three chats |
| Chats.ChatStore.SaveConversation | src/db_chats.cpp:170-223 | a save rewrites the newest chat and no other, and fails exactly when there is none |
| Gguf.RdOfEncode | scripts/gguf_meta.py:44-74 | rd consumes exactly a value's encoding, whatever follows it, for values nested to any depth |
| Gguf.RdManyOfEncode | scripts/gguf_meta.py:64-67 | an array's elements are read one after another and exactly |
| Gguf.RdOneByte | scripts/gguf_meta.py:44-59 | types 0, 1 and 7 take one byte: unsigned, two's complement, truth value |
| Gguf.RdTwoBytes | scripts/gguf_meta.py:46-49 | types 2 and 3 take two bytes, lowest first, with their sign |
| Gguf.RdFourBytes | scripts/gguf_meta.py:50-55 | types 4, 5 and 6 take four bytes |
| Gguf.RdEightBytes | scripts/gguf_meta.py:68-73 | types 10, 11 and 12 take eight bytes |
| Gguf.RdShortText | scripts/gguf_meta.py:58-60 | type 8 is a length in eight bytes, then the text |
| Gguf.RdShortArray | scripts/gguf_meta.py:61-64 | type 9 is an element type in four bytes, a count in eight, then the elements |
| Gguf.EncodeOfScalar | scripts/gguf_meta.py:44-73 | every number or float that is read is one that can be written, and writes the bytes it was read from |
| Gguf.TooLongIsRefused | scripts/gguf_meta.py:58-60 | a text or key is refused for its length if and only if that does not fit 63 bits |
| Gguf.MagicIsChecked | scripts/gguf_meta.py:36-37 | a file that does not start with GGUF is refused |
| Gguf.HeaderLayout | scripts/gguf_meta.py:36-40 | behind the letters: version in four bytes, tensor count in eight, number of keys in eight |
| Gguf.EntryLayout | scripts/gguf_meta.py:76-80 | a key behind its length in eight bytes, its type in four, then its value |
| Gguf.ReadKv | scripts/gguf_meta.py:34-83 | the loop over the keys computes the specified outcome, errors included |
| Gguf.HeaderBack | scripts/gguf_meta.py:34-83 | for every key/value list, exactly the requested keys that occur are returned, each with its last value, whatever is skipped |
| Gguf.RdOfCut | scripts/gguf_meta.py:61-67 | a value cut short is read without an error if and only if the cut falls inside a text that ends it |
| Gguf.HeaderOfCut | scripts/gguf_meta.py:76-83 | a header cut short is accepted if and only if the cut falls inside a text that ends its last value |

## Left out

- The llama.cpp and ggml libraries, tokenization, logits, sampling and its penalties: the model has the function `next` and the position semantics above.
- Interactive and conversation mode, antiprompts, encoder models, chat templates, and the text streams `conversation_ss`, `output_ss` and `prompt_remaining`: generation is stated over token ids.
- Group attention and context shift in one run: the loop in `Engine` has `ga_n` equal to 1, and `SelfExtend` starts from an empty session.
- Filesystem failures other than a missing file, and the file system's own path rules: names, paths and directory listings are values.
- The logits saved in a dump: the first sample of a call that decodes nothing follows the trimmed memory, which is what the code does on files that agree with their dump.
- A failing `llama_memory_seq_rm` (recurrent models): the code goes on with the untrimmed memory.
- A session file of exactly zero bytes or with a damaged encoding: a session file is absent, or a token list with its memory dump.
- SHA-256 is a function of the bytes added so far, of at most 64 characters.
- Decoding of texts and floats in GGUF headers: keys, texts and floats stay bytes. Memory and recursion limits of the Python reader.
- A context size that changes between calls: a session file of exactly n_ctx tokens, which no call writes under that n_ctx, is not covered (`Usable`).
- Candid encoding, access control, argument parsing, logging, cycles, health, readiness and timer endpoints: little beyond their own lines to state.
- Upgrades in the middle of an upload, which lose the upload sessions kept in memory.
- PromptCache.CacheStore.UploadPromptCacheChunk: the written bytes are one foreign blob; the chunk arithmetic is that of Upload.
- Transfer.Send: names of at most 4096 bytes; a longer one has no record to answer a repeated chunk with.
- Cleanup.StalePileDrains: ages are those of one moment; files that turn stale or are created between runs are not modelled.
- Chats.ChatStore.StartChat: write times grow from one new chat to the next; chats of different callers, which live in different folders, are not related.
- Gguf.RdOfEncode: texts and keys are shorter than 2^63 bytes, because `f.read` refuses a longer size.

# Vexel: a verified model of the host side

Vexel is an inference engine for language models. Its kernels run on the GPU; what decides whether the right
tokens come out is host code: schedulers that speculate, caches that are filled and rolled back, a block pool
with shared blocks, a small compiler pass, a tree of candidates and its attention mask. This project models
that code in Dafny and proves what it promises. `dafny verify dfyconfig.toml` checks all of it.

The neural network is any function from what a token attends to, to a row of logits. A cached entry remembers its
token, the position it was rotated to, and what it attended to itself when its vectors were computed, so a row is
right only if every entry behind it stands in its place and has seen the whole text before it. For the schedulers a
cache is a log of such entries that is extended, overwritten and cut. There are three caches, and what a pass over
several tokens shows them differs (inference/runtime/block.go): in the GPU block pool each token attends to the text
and the tokens before it; on the contiguous cache the pass is given its own keys and values only; on the CPU's paged
cache token i attends to the first i+1 entries of the cache. A single token sees everything on all three. That the
caches are logs of vectors is proved from their buffers, tables and counts; that storing and truncating vectors
follows feeding and cutting entries is proved in `CacheRefinement.dfy` for the pool's layers, which the CPU cache's
layers also are, and for the cells of the contiguous cache.

| file | contents |
|---|---|
| `Sampling.dfy` | greedy choice: two argmax loops, and when the final soft cap changes it |
| `Sequence.dfy` | one request: its life cycle, stream, limits and stop tokens |
| `Speculation.dfy` | decoding as a step protocol on the three caches, and the theorems about whole runs |
| `Transparency.dfy` | exactly which steps and runs are plain decoding |
| `MedusaPolicy.dfy` | when the Medusa scheduler speculates, over whole generations |
| `Schedulers.dfy` | the Medusa scheduler and the passes it makes, as objects |
| `Softmax.dfy` | the probability of a token |
| `DraftScheduler.dfy` | drafting with a draft model, and what verification really reads |
| `DraftRuns.dfy` | the draft-model scheduler as an object: drafts, draft cache and draft length over whole generations |
| `Batching.dfy` | many sequences in batches, and when batching changes output |
| `CandidateTree.dfy`, `TreeTraversal.dfy`, `TreePaths.dfy` | building, linearizing, masking and listing the candidate tree |
| `Fusion.dfy`, `FusionOutputs.dfy` | the MatMul + SiLU fusion pass of the IR, and when it keeps meaning |
| `BlockOwnership.dfy`, `BlockPool.dfy`, `BlockContents.dfy`, `BlockTables.dfy` | one layer of the GPU block pool as a value: counts, memory, logs, device tables |
| `BlockLengths.dfy` | how long a sequence is, and what attention is told, over whole runs |
| `GpuBlockPool.dfy` | the pool as an object, all layers |
| `PagedCache.dfy` | the CPU paged cache, a second implementation of the same specification |
| `ContiguousCache.dfy` | the contiguous cache, its transposing copy loop, and what happens past its capacity |
| `CacheRefinement.dfy` | the schedulers' log of entries against the caches' logs of vectors |
| `Lora.dfy` | saving and loading LoRA adapters |
| `Arena.dfy` | arena sizes against what passes allocate |
| `Windows.dfy` | the two circular windows |
| `Arithmetic.dfy`, `Ratios.dfy`, `Bytes.dfy`, `Flattening.dfy`, `Collections.dfy` | facts about division and quotients, little-endian bytes, rows in flat buffers, shared definitions |

## Main results

* **Speculation is transparent in the block pool.** There any mix of plain steps and tree steps with arbitrary
  candidates leaves a sequence exactly where one-token greedy decoding would, and so does any number of plain steps
  on every cache; two such runs that finish, on whichever caches, have the same output
  (`Speculation.SpeculationIsTransparent`, `Speculation.SameOutput`). **On the other caches it is not:** a run is
  transparent for every target exactly if no step after the first verified a path that was not empty
  (`Transparency.RunAlwaysTransparentIff`). On every cache, whatever is verified, cache length and position agree,
  output stops where it should, and every step yields a token (`Speculation.RunsStayAligned`,
  `Speculation.LimitedRunsFinish`). `Schedulers.MedusaScheduler.Generate` performs these runs.
* **Speculation has to be earned.** Over a whole generation an iteration speculates exactly if there are heads and
  paths and the last n counts recorded, by probes and verifications, average at least a half
  (`MedusaPolicy.RunSpeculatesIff`); with a window of n counts the first 8n+1 iterations never do
  (`MedusaPolicy.StartsPlain`), so a short generation is transparent on every cache
  (`MedusaPolicy.ShortRunsHarmless`).
* **Batching is transparent exactly** if no sequence decodes together with others at a text where the soft cap ties
  its token with an earlier one (`Batching.BatchingIsTransparentIff`).
* **Draft verification** keeps cache and sequence aligned over every run, whatever it reads
  (`DraftScheduling.RunsAsReadStayAligned`); what it emits follows the target only as described below. The tokens
  generated are one for each step and those accepted besides, and the draft cache is level with the text after the
  prefill and behind it ever after (`DraftRuns.RunInStep`).
* **Fusion keeps meaning exactly when it is safe** (`Fusion.PreservesMeaning`, `Fusion.MeaningKeptIffSafe`), where
  meaning is the value of every block output and of every tensor the result still writes. It keeps the block
  outputs alone exactly when none of them is, in the graph given to the pass, an absorbed product or computed from
  one other than through the SiLU that absorbs it (`FusionOutputs.OutputsKeptIff`).
* **Every block has an owner** over every run of the pool, failures included (`BlockContents.EveryBlockOwned`),
  and the pool **is a token log** as long as no shared block is written (`BlockContents.RunHolds`); a store shows
  in another sequence exactly where a block is shared (`BlockContents.LogSurvivesIff`). The CPU cache meets the
  same specification (`PagedCache.PagedKVCache.StoreKVBatch`).
* **Attention reads the host's block table**, and nothing past the end of its copy, over every run in which stores find
  their blocks (`BlockTables.AttentionReadsTable`). Between passes the length of every sequence is that of its log
  (`BlockLengths.RoundsSettle`), so attention is told exactly the tokens stored, and what it reads by the device's copy
  of the table is the log (`BlockLengths.AttentionReadsLog`).
* **The contiguous cache is a token log exactly up to its capacity** (`ContiguousCache.AppendSafeIff`).
* **The budgeted tree is the front of the complete tree** in breadth-first order, the mask is its ancestry, and its
  paths are what its leaves spell: within the budget, every choice of one candidate per head
  (`TreePaths.PathsAreProduct`).
* **Saving and loading an adapter is the identity exactly when it is storable** (`Lora.SaveThenLoad`).

## What the code does not do

Where the code falls short of what it says, the model follows the code, and a lemma says exactly when it works.

* On the contiguous cache, which the Medusa scheduler uses unless a context length is given
  (inference/cmd/vexel/commands.go:99-108), attention is given the cache for single tokens only
  (inference/runtime/block.go:1673-1769). Tree verification therefore judges by rows that have not seen the text:
  what it yields is the target's continuation, for every target, exactly if the path is empty and the cache is sound
  (`Transparency.VerdictAlwaysFollowsIff`); `Transparency.AttentiveGoesAstray` names a target for which every
  verification of a path yields a wrong token at once. The vectors it leaves do not depend on the text either
  (`CacheRefinement.OwnVectors`), so later plain decodes go wrong too (`Transparency.DecodeAlwaysFollowsIff`) until
  the sequence ends (`Transparency.RunSoundIff`). The CPU's paged cache fails in the same way
  (inference/runtime/block.go:978-985).
* `VerifyDraftTokens` reads (1+K) rows of logits back, but the pass before it (`DecodeWithGPUKV`,
  inference/runtime/decode.go:798-829) leaves only the row of the last token there, and on the contiguous cache, the
  only one this scheduler verifies on, that row belongs to input and draft without the text. What the GPU's memory
  behind the row holds is a parameter (`beyond`); on the CPU the slice is out of range and the step panics.
  `DraftScheduling.FollowsAsReadIff` says when the tokens emitted are still the target's whatever the memory holds
  and by whatever test: never by accepting anything. `DraftScheduling.OneRowBreaksRightDraft`: a draft of any length
  that is right throughout can be replaced by a wrong token. All rows of that pass would not make it right
  (`DraftScheduling.AllRowsFollowIff`).
* The probability test of draft verification accepts tokens the target would not choose, also drafts that a greedy
  draft model produced (`DraftScheduling.ProbabilityTestChangesOutput`). Whatever the rows,
  `Speculation.TestChangesVerdictIff` says when it changes the verdict, and `Speculation.VerdictFollowsIff` when the
  target's own rows would give the target's tokens in spite of it.
* The draft model's cache is cut one token too short after the first step and never catches up
  (`DraftScheduling.DraftCacheLags`, `DraftScheduling.LastAcceptedIsMissing`, and over runs `DraftRuns.RunInStep`).
* Prefill ignores the token limit, so a limit of 1 yields two tokens (`Sequences.LimitOneIsExceeded`).
* With too few rows `VerifyTreePath` repeats the last accepted token as the final one.
* Fusion does not check for other readers of the product (`Fusion.SecondReaderBreaksFusion`).
* `StoreKV` has no copy-on-write; `BlockContents.SurvivesIff` says exactly which positions of other sequences it
  overwrites. Creating a sequence under an existing id loses its blocks (`BlockPool.CreateOwnedIff`).
* Storing no tokens at position 0 takes a block, because Go truncates (0-1)/16 to 0
  (`BlockPool.EmptyStoreTakesBlock`).
* Attention over a length shorter than the table sends the whole table to a buffer with room for the length only: it
  writes past the end of the buffer exactly if the table is longer (`BlockTables.UploadCoherentIff`), and marks the
  copy clean, so that a later attention reads past the end (`BlockTables.ShortCopySticks`). What it finds there is the
  rest of the table or whatever has been written over it. Attention to whole sequences, which is all the program
  uses, comes to this after a store that ran out of blocks (`BlockTables.ShortageBreaksAttention`).
* The contiguous cache does not check its capacity; one position too many overwrites a live cell of the next head
  (`ContiguousCache.OverflowOverwrites`). `ContiguousCache.LiveKeptIff` is the exact condition.
* The final soft cap is applied at prefill and when several sequences decode together, and not otherwise; where
  rounding or saturation makes an earlier token's logit equal to the greatest, the capped paths choose differently
  (`Sampling.SoftCapKeepsGreedyIff`). So the first token is the greedy one exactly if the cap does not tie it
  (`Speculation.RefIsGreedyIff`), and batching is transparent only as said above.
* A verification pass needs logits for all its tokens, and a paged prefill the scores once more, which the arena is
  not planned for (`Arenas.VerificationMayNotFit`, `Arenas.PrefillMayNotFit`); for a verification on the contiguous
  cache and for a prefill half the planned batch of a configured model always fits, and `Arenas.PrefillFitsIff` says
  when a whole one does. A paged verification also makes room for the keys and values of the whole text: it fits up
  to some position and not beyond (`Arenas.PagedVerifyFitsIff`), for a quarter of the batch as long as the text is no
  longer than the plan (`Arenas.QuarterPlanFits`).

## Model

| member | source | states |
|---|---|---|
| Sampling.ArgmaxFloat32 | inference/scheduler/medusa_scheduler.go:1046-1059 | finds the first maximum, starting from the first value |
| Sampling.Argmax | inference/pkg/sampler/sampler.go:79-90 | finds the same first maximum, starting from the least float |
| Sampling.SoftCapKeepsGreedyIff | inference/runtime/model.go:336-349 | the cap keeps the greedy token exactly if it lifts no earlier token to the same value |
| Sequences.Sequence.NextInputToken | inference/scheduler/sequence.go:116-133 | the token and position to feed, and when there is none |
| Sequences.Sequence.ReachedMaxTokens | inference/scheduler/sequence.go:201-207 | the per-sequence limit if positive, else the global one, else none |
| Sequences.Sequence.IsExtraStopToken | inference/scheduler/sequence.go:261-268 | exactly membership in the stop list |
| Sequences.Sequence.EmitToken | inference/scheduler/scheduler.go:388-414 | the whole state after one decoded token: advanced, then finished and closed exactly if it is the end token, a stop token or the one that reaches the limit, and streamed otherwise |
| Sequences.Sequence.FinishPrefill | inference/scheduler/scheduler.go:597-640 | the whole state after prefill; only the end token or a stop token can finish the sequence there |
| Sequences.RunsAreWellLived | inference/scheduler/scheduler.go:245-641 | over every run: closed once and on finishing, everything but the last token streamed, output ends at the first stop token or at the limit (or at 2), next token fed at its own position |
| Sequences.WhatEnds | inference/scheduler/scheduler.go:388-414 | recording the end token or a stop token finishes and closes a sequence whatever the limits, and without limits nothing else does |
| Sequences.EventKeepsWellLived | inference/scheduler/scheduler.go:388-483 | every event keeps those facts |
| Sequences.FinishedForever | inference/scheduler/scheduler.go:205-224 | a finished sequence never changes again |
| Sequences.LimitOneIsExceeded | inference/scheduler/scheduler.go:597-640 | a limit of 1 yields two tokens |
| Speculation.Entries | inference/runtime/decode.go:661-829 | tokens are cached at consecutive positions |
| Speculation.ContextIsText | inference/runtime/block.go:893-919 | on a sound cache whose pass shows each token the text, row i of a pass over input and proposals is the target's row for the text plus the first i proposals, and the pass extends the cached text |
| Speculation.EmptyPass | inference/runtime/block.go:915-919 | in a pass over an empty cache the last token attends to all tokens fed, on every cache |
| Speculation.VerdictToken | inference/scheduler/medusa_scheduler.go:934-977 | given the target's rows for text and proposals, each emitted token is the target's choice for its prefix or passed the test |
| Speculation.JudgedKeepsCoupling | inference/scheduler/speculative_scheduler.go:163-233 | whatever rows a draft was judged by: cache equals the tokens before the position, 1 to K+1 tokens emitted |
| Speculation.VerifiedKeepsCoupling | inference/scheduler/medusa_scheduler.go:795-924 | the same for the rows of the pass itself, on every cache |
| Speculation.VerifiedFollowsRef | inference/scheduler/medusa_scheduler.go:795-924 | where the pass shows each token the text, a strict verification is a positive number of one-token greedy steps and leaves a sound cache |
| Speculation.DecodedFollowsRef | inference/scheduler/scheduler.go:271-414 | on a sound cache a plain decode attends to the text, is one greedy step and leaves a sound cache |
| Speculation.PrefilledIsRef | inference/scheduler/scheduler.go:557-641 | prefill leaves a sound cache with the prompt, and chooses the first token from the capped row |
| Speculation.LaterStep | inference/scheduler/medusa_scheduler.go:733-780 | which step is taken in a decoding state, and that it starts at the position |
| Speculation.FirstStepTracks | inference/scheduler/medusa_scheduler.go:288-413 | the first step, whatever was chosen, leaves the sequence at its second reference token unless the first ended the output |
| Speculation.SpeculationIsTransparent | inference/scheduler/medusa_scheduler.go:238-285 | in the block pool any mix of plain and tree steps, and on every cache any number of plain steps, leaves the sequence where n greedy steps would and the cache sound, and makes progress |
| Speculation.SameOutput | inference/scheduler/medusa_scheduler.go:238-285 | any two such runs that finished, on whichever caches, generated and streamed the same tokens: the greedy continuation of the prompt exactly if the cap does not tie its first token |
| Speculation.RefIsGreedyIff | inference/scheduler/scheduler.go:388-414 | the reference is the greedy continuation exactly if the cap does not tie the first token with an earlier one |
| Speculation.RefStutters | inference/scheduler/scheduler.go:205-224 | further steps after the end change nothing |
| Speculation.LimitedRunsFinish | inference/scheduler/sequence.go:201-207 | with a limit every long enough run finishes, on every cache, whatever was verified |
| Speculation.VerdictFollowsIff | inference/scheduler/speculative.go:182-206 | judged by the target's own rows for text and proposals, a draft verification follows the target exactly if the draft is the target's own choice throughout, or the first proposal that is not fails the probability test |
| Speculation.TestChangesVerdictIff | inference/scheduler/speculative.go:195-203 | whatever the rows: the test makes the verdict another one exactly if it takes the first proposal that is not its row's choice |
| Speculation.RunsStayAligned | inference/scheduler/medusa_scheduler.go:238-285 | over every run on every cache the target cache length equals the position, output stops at the first stop token or the limit, and every step yields a token until then |
| Speculation.StepKeepsAlive | inference/scheduler/medusa_scheduler.go:238-285 | every step keeps that |
| Transparency.ContextIsTextIff | inference/runtime/block.go:1673-1769 | what the input token attends to in a pass is the text exactly if the cache is sound and the pass shows it |
| Transparency.OwnContext | inference/runtime/block.go:1760-1769 | in a contiguous pass over several tokens each attends to those of the pass alone, whatever is cached |
| Transparency.FullContext | inference/runtime/block.go:893-919 | in the block pool, for a single token and on an empty cache, each attends to everything before it and to itself |
| Transparency.PagedContext | inference/runtime/block.go:978-985 | in a pass of several tokens on the CPU's paged cache token i attends to the first i+1 entries of the cache and itself, entry by entry |
| Transparency.VerdictAlwaysFollowsIff | inference/runtime/decode.go:1230-1317 | a tree verification yields every target's own continuation exactly if the cache is sound and the pass shows the text: in the block pool, or with an empty path |
| Transparency.AttentiveGoesAstray | inference/runtime/decode.go:1230-1317 | otherwise there is one target for which it yields a wrong token at once |
| Transparency.DecodeAlwaysFollowsIff | inference/runtime/block.go:1674-1759 | a plain decode is a greedy step of every target exactly if the cache is sound |
| Transparency.JudgedSoundIff | inference/scheduler/medusa_scheduler.go:840-868 | a verification leaves a sound cache exactly if it found one and showed each token the text |
| Transparency.RunSoundIff | inference/scheduler/medusa_scheduler.go:238-285 | over every run the cache is sound exactly if every pass after the first step showed each token the text: one that did not is never made good |
| Transparency.RunAlwaysTransparentIff | inference/scheduler/medusa_scheduler.go:238-285 | a run is where greedy steps would be, whatever the target and the limits, exactly if every pass after the first step showed each token the text |
| Schedulers.KVCache.Forward | inference/runtime/decode.go:1230-1317 | one row per token, computed from what the cache lets it attend to; the cache extended or overwritten from its start |
| Schedulers.KVCache.Store | inference/runtime/block.go:893-907 | the entries of a pass are laid over the cache |
| Schedulers.KVCache.Attend | inference/runtime/block.go:908-985 | a row for each token, from its part of the cache |
| Schedulers.KVCache.Truncate | inference/runtime/gpu_kv_cache.go:283-294 | keeps a clamped prefix |
| Schedulers.KVCache.Reset | inference/runtime/gpu_kv_cache.go:114-118 | empties the contiguous cache |
| Schedulers.SelectBestTreePath | inference/scheduler/medusa_scheduler.go:934-977 | accepted count is the greedy prefix of the first path, final token the target's next, with every early exit |
| Schedulers.VerifyTreePath | inference/medusa/tree.go:211-238 | the same verdict from separate rows, and what it returns when they run out |
| Schedulers.AcceptedIsTaken | inference/scheduler/medusa_scheduler.go:943-964 | with a row more than proposals nothing is cut short |
| Schedulers.RunPrefill | inference/scheduler/scheduler.go:557-641 | performs the prefill step of the protocol |
| Schedulers.RunDecode | inference/scheduler/scheduler.go:271-414 | performs one plain decode of the protocol |
| Schedulers.RunPlainStep | inference/scheduler/scheduler.go:245-414 | prefill and decode in one step |
| Schedulers.EmitAccepted | inference/scheduler/medusa_scheduler.go:870-903 | emits tokens in order until one finishes the sequence |
| Schedulers.MedusaScheduler.RecordAcceptance | inference/scheduler/medusa_scheduler.go:980-986 | writes the next slot of the ring, moves on and notes when the ring is full |
| Schedulers.MedusaScheduler.SpeculationEnabled | inference/scheduler/medusa_scheduler.go:1033-1043 | exactly: full, and at least half a token accepted on average |
| Schedulers.MedusaScheduler.JudgePath | inference/scheduler/medusa_scheduler.go:806-849 | one pass, and the verdict on the first path by the rows of that pass |
| Schedulers.MedusaScheduler.VerifyPath | inference/scheduler/medusa_scheduler.go:795-924 | performs the tree step on whichever cache: verify, record, truncate, emit |
| Schedulers.MedusaScheduler.RunDecodeStepWithTraining | inference/scheduler/medusa_scheduler.go:288-413 | performs a plain step, and has a hidden state afterwards if it decoded |
| Schedulers.MedusaScheduler.RunTreeMedusaDecodeStep | inference/scheduler/medusa_scheduler.go:733-924 | tree step or plain step, and when which; the ring afterwards: started over by a prefill, with the accepted count after a verification, kept otherwise |
| Schedulers.MedusaScheduler.Step | inference/scheduler/medusa_scheduler.go:238-285 | every iteration is a step of the protocol; it speculates exactly if the heads are ready, there is a hidden state and a path, and the ring is full and averages at least a half; ring, probes and hidden state afterwards |
| Schedulers.MedusaScheduler.Generate | inference/scheduler/medusa_scheduler.go:201-285 | any number of iterations, whatever the heads propose and the probes find, is a run of the protocol in which each speculates exactly as said: aligned, and at the greedy reference in the block pool and on the other caches as long as no path has been verified, which none is in the first 8n+1 iterations |
| Schedulers.MedusaScheduler.Probe | inference/scheduler/medusa_scheduler.go:267-281 | every eighth iteration that could propose but is not proven, a probe is recorded if there are two tokens |
| MedusaPolicy.RunSpeculatesIff | inference/scheduler/medusa_scheduler.go:257-285 | over a whole generation an iteration on a decoding sequence speculates exactly if heads and paths are there, and at least n counts have been recorded since the window was started, the last n of which average at least a half |
| MedusaPolicy.ProvenIff | inference/scheduler/medusa_scheduler.go:1033-1043 | a ring that remembers a past is full and good enough exactly if the past is long enough and its last counts are |
| MedusaPolicy.RunRemembers | inference/scheduler/medusa_scheduler.go:980-986 | over a whole generation the ring holds the last counts recorded since it was started over |
| MedusaPolicy.CountIsEmitted | inference/scheduler/medusa_scheduler.go:862-924 | the count recorded after a verification is one less than the tokens it emitted, unless one of them ended the output |
| MedusaPolicy.StartsPlain | inference/scheduler/medusa_scheduler.go:257-285 | with a window of n counts the first 8n+1 iterations of a new scheduler do not speculate |
| MedusaPolicy.ShortRunsHarmless | inference/scheduler/medusa_scheduler.go:257-285 | so short generations show each token the text on every cache |
| MedusaPolicy.RunHidden | inference/scheduler/medusa_scheduler.go:745-764 | while a sequence is decoding there is a hidden state to propose from |
| Probabilities.GetTokenProbability | inference/scheduler/speculative.go:291-315 | the softmax probability of a token, 0 for what is no token |
| Probabilities.SoftmaxGrows | inference/scheduler/speculative.go:291-315 | for a growing exponential a token is more likely than another exactly if its logit is greater |
| Probabilities.SoftmaxIsProportional | inference/scheduler/speculative.go:291-315 | for an exponential that turns sums into products, probabilities are proportional to the exponentials of the logits: subtracting the maximum changes nothing |
| Probabilities.SoftmaxSumsToOne | inference/scheduler/speculative.go:291-315 | all tokens together have probability 1, each of them some, and what is no token has none |
| DraftScheduling.GenerateDraftTokensFrom | inference/scheduler/speculative.go:96-139 | proposals, probabilities and draft cache after k draws |
| DraftScheduling.DrawIsGreedy | inference/scheduler/speculative.go:111-132 | every proposal is the draft model's own choice after what was cached, the input and the proposals before it, with its own probability there |
| DraftScheduling.DrawFollows | inference/scheduler/speculative.go:111-132 | from a level cache the proposals are the draft model's greedy continuation of the text |
| DraftScheduling.DrawFeeds | inference/scheduler/speculative.go:111-132 | the draft cache then holds the input and all proposals but the last |
| DraftScheduling.VerifyDraftAgainstLogits | inference/scheduler/speculative.go:225-265 | accepted count and final token for a slice of any length, short slices included |
| DraftScheduling.JudgeToken | inference/scheduler/speculative.go:243-254 | accepted exactly if chosen by the target or at least as likely |
| DraftScheduling.AllRowsWouldDo | inference/scheduler/speculative.go:225-265 | given the rows of all tokens of the pass, the verifier's count and final token make a verification by the rows of the pass |
| DraftScheduling.AllRowsFollowIff | inference/runtime/block.go:1760-1769 | even then, whatever the test, the verdict is every target's own continuation exactly if nothing was drafted and the cache is sound |
| DraftScheduling.AlignedAsRead | inference/scheduler/speculative_scheduler.go:163-233 | whatever was read back, one step keeps the target cache aligned, and a verification emits 1 to K+1 tokens |
| DraftScheduling.RunsAsReadStayAligned | inference/scheduler/speculative_scheduler.go:62-118 | over every run of the step as the code performs it, with any drafts, test and memory: target cache aligned, a token per step until the end |
| DraftScheduling.LastIsOwn | inference/runtime/block.go:1760-1769 | the row that is there belongs to input and draft without the text |
| DraftScheduling.FirstAsRead | inference/scheduler/speculative.go:173-194 | the first token is judged by that row, and is its choice unless the proposal passes |
| DraftScheduling.FollowsAsReadIff | inference/scheduler/speculative.go:147-213 | for every test: the verdict follows the target whatever the memory holds exactly if the row of input and draft alone rejects the first proposal and chooses what the target chooses after the text |
| DraftScheduling.OneRowBreaksRightDraft | inference/scheduler/speculative.go:147-213 | a draft of any length that is right throughout is rejected and replaced by a wrong token |
| DraftScheduling.ProbabilityTestChangesOutput | inference/scheduler/speculative.go:195-203 | for a target whose row is the same whatever it attends to: a greedy draft model's own proposal is kept although the target would choose otherwise, with softmax probabilities and all rows at hand |
| DraftScheduling.DraftCacheLags | inference/scheduler/speculative_scheduler.go:182-189 | how far the draft cache is behind after every step: at least one |
| DraftScheduling.LastAcceptedIsMissing | inference/scheduler/speculative_scheduler.go:182-189 | what is missing is the last accepted token |
| DraftRuns.SpeculativeScheduler.PrefillDraftModel | inference/scheduler/speculative_scheduler.go:246-260 | the draft cache then holds the prompt |
| DraftRuns.SpeculativeScheduler.ReadLogits | inference/scheduler/speculative.go:162-180 | one pass of the target; what is read back is its last row and the memory behind it |
| DraftRuns.SpeculativeScheduler.VerifyDraftTokens | inference/scheduler/speculative.go:147-213 | one pass of the target, judged by what is read back |
| DraftRuns.SpeculativeScheduler.RollBack | inference/scheduler/speculative_scheduler.go:158-200 | verdict, and both caches cut |
| DraftRuns.SpeculativeScheduler.Speculate | inference/scheduler/speculative_scheduler.go:141-233 | proposing, verifying, rolling back and emitting are the verification as read, of a draft that the draft model chose; the draft cache afterwards is cut to position and accepted count |
| DraftRuns.SpeculativeScheduler.RunSpeculativeDecodeStep | inference/scheduler/speculative_scheduler.go:121-243 | every step is the step as read; a prefill leaves the prompt in the draft cache; a speculation drafts as many tokens as the window says, each the draft model's greedy choice after its cache, the input and those before, cuts the draft cache to position and accepted count, and tunes the number of drafts; any other step leaves the draft model alone |
| DraftRuns.SpeculativeScheduler.RunSteps | inference/scheduler/speculative_scheduler.go:62-118 | any number of steps is the run as read with such drafts, yields a token per step until the end, and leaves the draft cache where RunInStep says |
| DraftRuns.RunInStep | inference/scheduler/speculative_scheduler.go:121-243 | over a whole generation: tokens generated are steps and accepted tokens; the draft cache is the prompt after the prefill, and at least one entry behind the position after every later step |
| DraftRuns.TurnInStep | inference/scheduler/speculative_scheduler.go:141-233 | one step keeps those facts, and moves the lag as DraftCacheLags says |
| DraftRuns.FirstDraftFollows | inference/scheduler/speculative_scheduler.go:121-160 | the first draft is the draft model's greedy continuation of prompt and first token |
| DraftRuns.DrawProposes | inference/scheduler/speculative.go:96-139 | what the drawing loop yields is the draft model's own choice throughout, with its own probabilities |
| DraftRuns.LengthsStay | inference/scheduler/adaptive_draft.go:72-104 | over a whole generation the number of tokens to draft stays within its bounds |
| Batching.Scheduler.CollectReady | inference/scheduler/scheduler.go:205-224 | each unfinished sequence once |
| Batching.Scheduler.FormBatches | inference/scheduler/scheduler.go:227-242 | the longest prefix that fits |
| Batching.Scheduler.RunDecodeStep | inference/scheduler/scheduler.go:245-483 | every sequence of the batch is prefilled if it must be and decodes if it can, the others are left alone |
| Batching.Scheduler.DecodeAll | inference/scheduler/scheduler.go:377-471 | one pass and a token for each, chosen on the device for a single sequence and from capped rows for several |
| Batching.Scheduler.EmitEach | inference/scheduler/scheduler.go:417-471 | sequence i is given the token of row i |
| Batching.Scheduler.Step | inference/scheduler/scheduler.go:168-201 | a batch of ready sequences steps; with an empty batch the finished ones are dropped, which are all unless the batch size is 0 |
| Batching.DecodedAmongIff | inference/scheduler/scheduler.go:744-776 | a decode in company is a plain decode exactly if there is no company or the cap does not tie its token with an earlier one |
| Batching.TurnsArePlainSteps | inference/scheduler/scheduler.go:168-201 | as long as no such tie has happened a sequence is where as many plain steps on its own would leave it |
| Batching.BatchingIsTransparentIff | inference/scheduler/scheduler.go:168-201 | whatever batches were formed, a sequence is at its greedy reference exactly if no such tie has happened |
| CandidateTrees.TopKWithValues | inference/medusa/tree.go:242-271 | the k best entries with their indices, in descending order |
| CandidateTrees.LevelIsProduct | inference/medusa/tree.go:46-99 | a level of the complete tree is every choice of one candidate per head |
| CandidateTrees.LevelLengths | inference/medusa/tree.go:67-99 | every trail of level k has k candidates |
| CandidateTrees.TopKOfHeads | inference/medusa/tree.go:46-66 | the lists of all heads, or failure if a head has no logits |
| CandidateTrees.GrowTree | inference/medusa/tree.go:67-99 | the nodes are the first ones of the complete tree in BFS order, as many as the budget allows; depth and head of each are the length of its trail less one |
| CandidateTrees.BuildCandidateTree | inference/medusa/tree.go:46-99 | the same from logits, and when there is no tree |
| TreeTraversal.Linearize | inference/medusa/tree.go:144-178 | every node but the root once, parents earlier; creation order on such a tree |
| TreeTraversal.BuildTreeAttentionMask | inference/medusa/tree.go:186-202 | cell (i, j) set exactly when the parent walk from i meets j |
| TreeTraversal.AttendsIsAncestor | inference/medusa/tree.go:186-202 | the parent walk meets exactly the ancestors in the tree |
| TreePaths.Dfs | inference/medusa/tree.go:104-127 | appends the paths of the leaves below a node, in order |
| TreePaths.WalkIsLeaves | inference/medusa/tree.go:104-127 | the walk visits each leaf exactly once |
| TreePaths.Paths | inference/medusa/tree.go:104-135 | exactly one path per leaf, by descending confidence: its tokens are those on the way from the root to the leaf, without the root, and its confidence is the sum of their logits |
| TreePaths.TokensAre | inference/medusa/tree.go:104-127 | as many tokens as candidates on the trail, one for each in order |
| TreePaths.ConfidenceAdds | inference/medusa/tree.go:104-127 | the confidence is the sum of the logits, 0 for no candidate |
| TreePaths.LeavesAreProduct | inference/medusa/tree.go:46-135 | if the budget was not hit the leaves are the full product of the lists |
| TreePaths.PathsAreProduct | inference/medusa/tree.go:46-135 | and the paths are the token lists of that product, one each |
| TreePaths.TopKNoRepeats | inference/medusa/tree.go:242-271 | a top-k list has no candidate twice |
| Fusion.Run | inference/ir/fusion.go:12-88 | the nested loops compute the pass specification; inputs and outputs are kept |
| Fusion.RunIsIdempotent | inference/ir/fusion.go:12-88 | a second run changes nothing |
| Fusion.OneNodeFewerPerMerge | inference/ir/fusion.go:12-88 | one node fewer for each merged pair, and no node merged twice |
| Fusion.ResultWellFormed | inference/ir/fusion.go:12-88 | the result is single-assignment and topologically ordered again |
| Fusion.Simulation | inference/ir/fusion.go:12-88 | step by step, original and result agree on all tensors still needed |
| Fusion.PreservesMeaning | inference/ir/fusion.go:12-88 | every block output keeps its value, however far the SiLU is from its product |
| Fusion.MeaningKeptIffSafe | inference/ir/fusion.go:33-66 | meaning is kept exactly if every product a later SiLU reads has no other reader and is no output |
| FusionOutputs.MergeIsAbsorption | inference/ir/fusion.go:33-66 | every merge takes a Matmul and the first later SiLU whose only input is its product |
| FusionOutputs.AbsorptionIsMerge | inference/ir/fusion.go:33-66 | and every such pair is merged |
| FusionOutputs.OutputsKeptIff | inference/ir/fusion.go:12-88 | the block outputs keep their values exactly if none, in the graph given, is an absorbed product or computed from one other than through the SiLU that absorbs it |
| FusionOutputs.UnchangedKept | inference/ir/fusion.go:12-88 | and then under every meaning of the node kinds |
| Fusion.SecondReaderBreaksFusion | inference/ir/fusion.go:33-66 | a three-node graph whose meaning changes |
| BlockOwnership.AllocBalanced | inference/runtime/gpu_block_pool.go:200-209 | allocation hands out a block nobody uses and counts it once |
| BlockOwnership.ReleaseBalanced | inference/runtime/gpu_block_pool.go:211-219 | release takes one use away and frees the block with the last |
| BlockOwnership.RetainAllBalanced | inference/runtime/gpu_block_pool.go:590-597 | sharing adds one use for each entry copied |
| BlockOwnership.GrowBalanced | inference/runtime/gpu_block_pool.go:236-245 | growing a table stays balanced wherever it stops, with fresh distinct blocks |
| BlockOwnership.UsedOnce | inference/runtime/gpu_block_pool.go:51-60 | a block at two places is used more than once |
| BlockPool.SlotInjective | inference/backend/backend.go:414-466 | block, kind and offset are told apart by the flat index |
| BlockPool.CreateOwnedIff | inference/runtime/gpu_block_pool.go:126-135 | creating keeps ownership exactly if the id is new or its table empty |
| BlockPool.DeleteOwned | inference/runtime/gpu_block_pool.go:138-157 | deletion keeps ownership |
| BlockPool.TruncateOwned | inference/runtime/gpu_block_pool.go:162-190 | truncation keeps ownership |
| BlockPool.ReserveOwned | inference/runtime/gpu_block_pool.go:236-245 | reservation keeps ownership, even out of blocks |
| BlockPool.StoreOwned | inference/runtime/gpu_block_pool.go:223-323 | a store keeps ownership |
| BlockPool.ShareOwned | inference/runtime/gpu_block_pool.go:572-607 | sharing keeps ownership |
| BlockPool.TruncateIsTight | inference/runtime/gpu_block_pool.go:171-189 | truncation leaves no block without a live position |
| BlockPool.ReserveIsTight | inference/runtime/gpu_block_pool.go:234-245 | a store takes new blocks only as far as it writes |
| BlockPool.EmptyStoreTakesBlock | inference/runtime/gpu_block_pool.go:234-245 | storing nothing at position 0 takes a block all the same, unless blocks hold one token |
| BlockContents.EveryBlockOwned | inference/runtime/gpu_block_pool.go:126-245 | in every reachable state each block is free once, or counted exactly as often as it occurs |
| BlockContents.StoreCells | inference/runtime/gpu_block_pool.go:247-317 | what every cell of every sequence holds after an unshared store |
| BlockContents.SurvivesIff | inference/runtime/gpu_block_pool.go:223-323 | a position of another sequence survives every store of n tokens exactly if no position written, as far as the table covered it, has its block and its place in the block |
| BlockContents.LogSurvivesIff | inference/runtime/gpu_block_pool.go:223-323 | the log of another sequence survives every such store exactly if no position of it is hit |
| BlockContents.StoreReadsBack | inference/runtime/gpu_block_pool.go:223-323 | the sequence reads back its log overwritten by the tokens |
| BlockContents.StoreLeavesOthers | inference/runtime/gpu_block_pool.go:223-323 | other sequences read back what they did |
| BlockContents.TruncateHolds | inference/runtime/gpu_block_pool.go:162-190 | truncation cuts the log of that sequence only |
| BlockContents.ShareHolds | inference/runtime/gpu_block_pool.go:572-607 | sharing gives an empty sequence the first tokens of another |
| BlockContents.NewHolds | inference/runtime/gpu_block_pool.go:66-123 | a new pool holds no logs, whatever is in its memory |
| BlockContents.DoHolds | inference/runtime/gpu_block_pool.go:126-323 | every operation does to the logs what the log specification says |
| BlockContents.RunHolds | inference/runtime/gpu_block_pool.go:126-323 | over every faithful run each sequence reads back its log |
| BlockContents.RejectedTokensVanish | inference/runtime/gpu_block_pool.go:162-190 | storing a draft and truncating equals storing the accepted tokens |
| BlockContents.SharedPrefixSurvives | inference/runtime/gpu_block_pool.go:138-157 | a shared prefix reads the same on both sides and survives the deletion of either |
| BlockContents.BothDeleted | inference/runtime/gpu_block_pool.go:138-157 | deleting both, in any order, frees each of their blocks exactly once |
| BlockTables.KernelArgumentsIff | inference/runtime/gpu_block_pool.go:358-367 | the kernel is told exactly the length; the last block is neither empty nor overfull exactly if the table covers it |
| BlockTables.StoredLengthCovered | inference/runtime/gpu_block_pool.go:236-320 | after a store to the end of a sequence the table covers it |
| BlockTables.UploadCoherentIff | inference/runtime/gpu_block_pool.go:369-377 | the buffer holds the host table exactly if nothing was written past its end, which happens exactly if a table longer than the length is sent |
| BlockTables.ShortCopySticks | inference/runtime/gpu_block_pool.go:358-377 | an attention over a short length writes past the buffer, and the next full one sends nothing and reads past it |
| BlockTables.PlainIsFullIff | inference/runtime/gpu_block_pool.go:327-367 | plain attention spans all blocks exactly if the last one holds a position |
| BlockTables.NextCoherent | inference/runtime/gpu_block_pool.go:126-245 | every operation with its guards, and every attention to a whole sequence, keeps tables tight and clean copies equal to them |
| BlockTables.AttentionReadsTable | inference/runtime/gpu_block_pool.go:327-433 | over every interleaving of attention to whole sequences, by one query or several, with creations, deletions, truncations, stores that find their blocks and shares with empty sequences: the device copy is the whole host table, and nothing is written or read past it |
| BlockTables.NewCoherent | inference/runtime/gpu_block_pool.go:66-123 | a new pool is in the state such a run starts from |
| BlockLengths.DoLengths | inference/runtime/gpu_block_pool.go:126-322 | every operation keeps the length at that of the log, or as far as another layer has been stored to; a new sequence has length 0 |
| BlockLengths.CreateLengths | inference/runtime/gpu_block_pool.go:126-135 | a new sequence has length 0 and no blocks |
| BlockLengths.RoundsSettle | inference/runtime/gpu_block_pool.go:126-322 | over every run of passes that store in all layers, complete shares, truncations, creations, deletions and attention, the length of every sequence is that of its log |
| BlockLengths.PassOwesNothing | inference/runtime/gpu_block_pool.go:223-322 | a pass that stores in every layer leaves no layer behind the length |
| BlockLengths.AttentionReadsLog | inference/runtime/gpu_block_pool.go:337-391 | over every such run attention is told the length of the log, with a last block neither empty nor overfull, and what is read by the device's copy of the table is the log |
| BlockLengths.NewSound | inference/runtime/gpu_block_pool.go:66-123 | a new pool is in the state such a run starts from |
| BlockTables.ShortageBreaksAttention | inference/runtime/gpu_block_pool.go:234-245 | a store that runs out of blocks, one attention, which writes past its buffer, and a store that succeeds: the next attention reads past the buffer |
| GpuBlockPool.GPUBlockPool.constructor | inference/runtime/gpu_block_pool.go:66-123 | all blocks of all layers free |
| GpuBlockPool.GPUBlockPool.CreateSequence | inference/runtime/gpu_block_pool.go:126-135 | an empty table in every layer, overwriting what was there |
| GpuBlockPool.GPUBlockPool.DeleteSequence | inference/runtime/gpu_block_pool.go:138-157 | deletes in every layer |
| GpuBlockPool.GPUBlockPool.TruncateSequence | inference/runtime/gpu_block_pool.go:162-190 | truncates in every layer, or does nothing |
| GpuBlockPool.GPUBlockPool.AllocBlock | inference/runtime/gpu_block_pool.go:200-209 | pops the last free block, or fails unchanged |
| GpuBlockPool.GPUBlockPool.ReleaseBlock | inference/runtime/gpu_block_pool.go:211-219 | one use less; the last frees the block |
| GpuBlockPool.GPUBlockPool.ReserveBlocks | inference/runtime/gpu_block_pool.go:234-245 | appends blocks until done or out of blocks |
| GpuBlockPool.GPUBlockPool.ScatterTokens | inference/runtime/gpu_block_pool.go:247-315 | each token to the cell of its position |
| GpuBlockPool.GPUBlockPool.StoreKV | inference/runtime/gpu_block_pool.go:223-323 | stores in one layer, lengthens in all; succeeds exactly if the blocks suffice |
| GpuBlockPool.GPUBlockPool.AttentionWithKVLen | inference/runtime/gpu_block_pool.go:337-389 | table copy, block count and last-block count given to the kernel |
| GpuBlockPool.GPUBlockPool.Attention | inference/runtime/gpu_block_pool.go:327-330 | is the attention event of the run theorem |
| GpuBlockPool.GPUBlockPool.AttentionMultiquery | inference/runtime/gpu_block_pool.go:394-433 | sends the whole table to a buffer of its length; is the other attention event |
| GpuBlockPool.GPUBlockPool.GatherKV | inference/runtime/gpu_block_pool.go:521-566 | the first tokens of the log in contiguous buffers |
| GpuBlockPool.GPUBlockPool.ShareBlocks | inference/runtime/gpu_block_pool.go:572-607 | shares in all layers, or in those before the first that is too short |
| PagedCache.OneTableEach | inference/kv/paged.go:84-123 | without fragments a block is in one table of its layer, at one place |
| PagedCache.PagedKVCache.constructor | inference/kv/paged.go:52-81 | all blocks free in descending order, so that block 0 is next; ids start at 1 |
| PagedCache.PagedKVCache.Allocate | inference/kv/paged.go:84-106 | pops the last free block |
| PagedCache.PagedKVCache.Free | inference/kv/paged.go:109-123 | frees the block although its count is shared between layers |
| PagedCache.PagedKVCache.CreateSequence | inference/kv/paged_cache.go:47-56 | the next id, with empty tables |
| PagedCache.PagedKVCache.DeleteSequence | inference/kv/paged_cache.go:59-76 | does to every layer what the pool's deletion does |
| PagedCache.PagedKVCache.TruncateSequence | inference/kv/paged_cache.go:348-369 | does to every layer what the pool's truncation does |
| PagedCache.PagedKVCache.FreeBeyond | inference/kv/paged.go:246-264 | the dropped blocks of each layer go back to its free list |
| PagedCache.PagedKVCache.StoreKV | inference/kv/paged_cache.go:107-152 | does what the pool's store of one token does, creating the sequence if needed |
| PagedCache.PagedKVCache.StoreKVBatch | inference/kv/paged_cache.go:157-171 | the log overwritten by the tokens stored, all of them unless blocks ran out |
| PagedCache.PagedKVCache.GetKVSlice | inference/kv/paged_cache.go:176-224 | exactly the stored part of the log, across block boundaries |
| ContiguousCache.CellsApart | inference/runtime/gpu_kv_cache.go:222-242 | within the capacity head and position determine the cell |
| ContiguousCache.CellsFitIff | inference/runtime/gpu_kv_cache.go:222-242 | the cells of positions below n are inside the buffer and distinct exactly if n is within the capacity |
| ContiguousCache.TokenCell | inference/runtime/gpu_kv_cache.go:232-242 | what every cell holds after a token is written at any position, past the capacity too |
| ContiguousCache.AppendSafeIff | inference/runtime/gpu_kv_cache.go:157-256 | the buffer holds the old log and whatever is appended exactly if both fit |
| ContiguousCache.OverflowOverwrites | inference/runtime/gpu_kv_cache.go:222-242 | an append across the capacity puts a head of the first token too many into the next head's position 0 |
| ContiguousCache.LiveKeptIff | inference/runtime/gpu_kv_cache.go:222-242 | no append of n tokens overwrites a live cell exactly if they fit or there is one head only |
| ContiguousCache.AppendHolds | inference/runtime/gpu_kv_cache.go:157-256 | within the capacity an append extends the log |
| ContiguousCache.CutHolds | inference/runtime/gpu_kv_cache.go:283-294 | after a truncation the buffer holds the first tokens |
| ContiguousCache.Source | inference/runtime/gpu_kv_cache.go:235-236 | the source offset is that head of that token |
| ContiguousCache.Destination | inference/runtime/gpu_kv_cache.go:237-242 | the destination offset is the cell of head and position, if that is inside the buffer |
| ContiguousCache.GPUKVCache.CopyHeads | inference/runtime/gpu_kv_cache.go:222-242 | the loop transposes tokens into cells of head and position, whatever the capacity |
| ContiguousCache.GPUKVCache.AppendKV | inference/runtime/gpu_kv_cache.go:157-256 | the tokens are appended to that layer's cells; the length moves only with the last layer |
| ContiguousCache.GPUKVCache.ReserveKV | inference/runtime/gpu_kv_cache.go:268-278 | where to write, and when the length moves |
| ContiguousCache.GPUKVCache.Truncate | inference/runtime/gpu_kv_cache.go:283-294 | the clamped length; no cell changes |
| ContiguousCache.GPUKVCache.ForwardPass | inference/runtime/decode.go:757-770 | in a pass over all layers each is appended to from the same position, and the length moves once |
| CacheRefinement.FeedIsStore | inference/runtime/block.go:893-907 | feeding the schedulers' log is storing its vectors in the pool |
| CacheRefinement.CutIsTruncate | inference/runtime/gpu_block_pool.go:162-190 | cutting the log is truncating the sequence |
| CacheRefinement.FeedThenCut | inference/scheduler/medusa_scheduler.go:840-868 | storing a pass and truncating it leaves the vectors of the fed and cut log, and every other sequence as it was |
| CacheRefinement.JudgedIsCut | inference/scheduler/speculative_scheduler.go:171-189 | what is cached after a verification is input and proposals fed and cut behind the taken ones: the tokens of text and those proposals, and as the text itself would be cached exactly if the cache was sound and the pass showed the text |
| CacheRefinement.OwnVectors | inference/runtime/block.go:1760-1769 | the vectors a contiguous pass over several tokens leaves are those of its own tokens, whatever text is cached |
| CacheRefinement.TextVectors | inference/runtime/block.go:893-914 | those of a pass that shows each token the text are the text's |
| CacheRefinement.FeedIsAppend | inference/runtime/gpu_kv_cache.go:157-256 | feeding is appending to the contiguous cells, within the capacity, whatever each token attended to |
| CacheRefinement.CutIsShorter | inference/runtime/gpu_kv_cache.go:283-294 | cutting leaves the cells holding the shorter log |
| Bytes.BytesRoundTrip | inference/lora/writer.go:193-199 | little-endian bytes read back |
| Bytes.BytesAre | inference/lora/writer.go:193-199 | byte i is the i-th digit of the number to base 256, least first |
| Lora.F32RoundTrip | inference/lora/loader.go:237-253 | converted data is the data written |
| Lora.F32BytesAre | inference/lora/writer.go:193-199 | byte j of number i of the data is byte j of its bits, four for each |
| Lora.OffsetsTile | inference/lora/writer.go:145-162 | the entries tile the blob in order and each names its own tensor, as F32 with rows and columns for its shape |
| Lora.TensorsAre | inference/lora/writer.go:87-140 | exactly the matrices of complete projections are written, each under its own name |
| Lora.Save | inference/lora/writer.go:76-181 | length, header and data of the file |
| Lora.BuildHeader | inference/lora/writer.go:142-156 | header and data with a running offset |
| Lora.LoadSafetensors | inference/lora/loader.go:172-233 | in whatever order, loads exactly if all entries parse, other names included and the metadata left out |
| Lora.FindMaxLayer | inference/lora/loader.go:97-110 | the largest layer named |
| Lora.Load | inference/lora/loader.go:86-160 | as many layers as named, each with what was stored under its names |
| Lora.WrittenParses | inference/lora/loader.go:206-228 | a written tensor parses exactly if its shape fits |
| Lora.FaithfulCodec | inference/lora/writer.go:158-176 | one codec can be faithful to any list of headers |
| Lora.SaveThenLoad | inference/lora/writer.go:76-181 | if the codec gives this header back, saving and loading is the identity exactly for storable adapters |
| Arenas.ScratchGrows | inference/runtime/config.go:351-386 | a larger batch never needs less scratch |
| Arenas.Arena.Alloc | inference/memory/arena.go:74-94 | fails exactly if it does not fit, else the next free bytes |
| Arenas.AllocPass | inference/runtime/decode.go:704-736 | the four buffers of a pass are disjoint, and when they fit |
| Arenas.DecodePass | inference/runtime/decode.go:704-826 | in an arena planned for m tokens no pass over at most m runs out |
| Arenas.VerifyPass | inference/runtime/decode.go:1259-1314 | exactly when a verification pass on the contiguous cache fits |
| Arenas.PagedVerifyPass | inference/runtime/decode.go:1446-1562 | exactly when a paged verification pass fits |
| Arenas.PagedVerifyFitsIff | inference/runtime/decode.go:1514-1522 | up to some position of the text, and not beyond |
| Arenas.QuarterPlanFits | inference/runtime/decode.go:1514-1522 | a quarter of the planned batch always does, on a text no longer than the plan |
| Arenas.PagedVerificationMayNotFit | inference/runtime/decode.go:1514-1522 | a single token within the plan that does not |
| Arenas.HalfPlanFits | inference/runtime/config.go:399-411 | a contiguous verification or a prefill of half the planned batch always fits |
| Arenas.VerificationMayNotFit | inference/runtime/config.go:399-411 | a batch within the plan that does not |
| Arenas.PrefillPass | inference/runtime/decode.go:1014-1089 | exactly when a paged prefill fits: always for half the plan, for all of it exactly if the headroom covers the scores |
| Arenas.PrefillFitsIff | inference/runtime/config.go:399-411 | a prefill of the whole plan fits exactly if 40 m^2 is at most the planned bytes |
| Arenas.PrefillGrows | inference/runtime/decode.go:1014-1089 | what fits for a prompt fits for a shorter one |
| Arenas.PrefillMayNotFit | inference/runtime/config.go:399-411 | a prompt within the plan that does not fit |
| Arenas.CarveScratch | inference/runtime/block.go:1217-1250 | the eight buffers of a layer are disjoint and inside its scratch |
| Windows.Advance | inference/medusa/buffer.go:42-52 | one write to a circular array adds to the past it holds |
| Windows.Oldest | inference/medusa/buffer.go:133-136 | where the i-th oldest element is |
| Windows.RingBuffer.AddBatch | inference/medusa/buffer.go:55-67 | adds all samples in order |
| Windows.RingBuffer.GetAll | inference/medusa/buffer.go:125-140 | the last samples up to the capacity, oldest first |
| Windows.RingBuffer.Sample | inference/medusa/buffer.go:90-121 | as many recent samples as asked for, or all: those at the first different indices drawn |
| Windows.FirstsAre | inference/medusa/buffer.go:90-121 | the different indices are exactly those drawn, the first one in front; all of them if none is drawn twice |
| Windows.RingBuffer.Clear | inference/medusa/buffer.go:143-149 | forgets the past |
| Windows.SumCircular | inference/scheduler/adaptive_draft.go:113-126 | summing the array sums the window, whatever its rotation |
| Windows.AverageIs | inference/scheduler/adaptive_draft.go:113-126 | the average rate is between 0 and 1, 1 if every draft was accepted in full, and no less if more is accepted |
| Windows.RateIs | inference/scheduler/adaptive_draft.go:113-126 | the rate of a step is the accepted share of what was drafted |
| Windows.AdjustedStays | inference/scheduler/adaptive_draft.go:91-103 | the length stays within its bounds, and moves by exactly one past a threshold and otherwise not at all |
| Windows.AdaptiveDraftLength.WindowRate | inference/scheduler/adaptive_draft.go:113-126 | the average over exactly the last steps |
| Windows.AdaptiveDraftLength.RecordStep | inference/scheduler/adaptive_draft.go:72-104 | ignores steps without drafts and adjusts only on a full window |

## Left out

- Schedulers.SelectBestTreePath: paths are values; the tree nodes behind them are indices into a store, not pointers.
- DraftRuns.SpeculativeScheduler.RunSpeculativeDecodeStep: the loop that the code writes twice, in VerifyDraftTokens and in verifyDraftAgainstLogits, is modelled once.
- ContiguousCache.GPUKVCache.AppendKV: what a write past the end of the whole buffer hits is not modelled; the FP16 and Q8_0 layouts and the scatter kernels are not modelled, only the copy loop they replace.
- GpuBlockPool.GPUBlockPool.StoreKV: positions are not negative, and the backend can copy buffers.
- PagedCache.PagedKVCache.StoreKV: no fragments (`InsertFragment`, `CacheContent`), whose counts mix layers; the fill count of a block, which nothing reads, is dropped.
- Lora.Load: F16 and BF16 data are converted by an unknown function; JSON is any codec that gives the header at hand back; sizes are unbounded integers; weight names are structured, so two different names that the regular expression reads as the same weight are not modelled; nor is the configuration file.
- Arenas.PrefillPass: the copy of the last token's state, which the GPU path allocates outside the arena.
- Arenas.Arena.Alloc: sizes are unbounded integers; on the GPU each request is a buffer of its own, counted the same way.
- CandidateTrees.TopKWithValues: the library sort is modelled by insertion, one of the orders it may give to equal values.
- Windows.RingBuffer.Sample: randomness is a list of draws with enough different ones among them; the code keeps drawing until it has found them.
- Logits are finite reals within the range of float32; NaN, infinities and rounding are not modelled.
- Streams: a token offered to a channel counts as sent; the code drops it when 100 are waiting.
- Exactly one cache is configured. With both, tree verification would use the paged one although prefill filled the other.
- Several sequences on the single contiguous cache, which they would overwrite for each other; in a batch every sequence has a log of its own.
- DraftRuns.SpeculativeScheduler.ReadLogits: on the CPU, where reading past the one row panics.
- The soft cap is a function of the logit; a backend on the CPU, which never applies it, is the identity.
- Fallbacks for empty prompts, missing logits and verification errors after tokens were cached.
- `runMedusaDecodeStep` and self-speculative decoding.
- Training of the heads, acceptance probes beyond their effect on the ring, metrics, and everything on the network.
- `AttentionBatched`, whose uploads, like those of `AttentionMultiquery`, are always of the whole table.
- CacheRefinement.FeedIsStore: several layers at once; each layer keeps its own vectors of the same entries.
- Kernels, synchronization and locks; every locked method is one step.

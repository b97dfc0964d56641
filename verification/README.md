# A model of a speculating, batching, streaming language-model server

This project models the deterministic core of an inference engine and its server, and proves what the
rest of the system relies on.  It is laid out as the system is, from the bottom up:

* **One layer.**  `Buffers`, `Sconv`, `Mask`, `Heads`, `Sdpa`, `Ops`, `Attention` and `Layer` model a
  decoder layer on the CPU: flat buffers and the loops over them, the short convolutions and their
  rewindable windows, the banded mask, grouped attention over a cached span, and the cache that carries all
  of it between calls.  Every call is proved against a function of the whole sequence in which no cache
  appears, so feeding a sequence whole or in pieces, rewinding it, or resuming a mark are all the same
  computation by construction of that proof and not by assumption.
* **The stack and its batches.**  `Model` and `Batched` lift that to a stack of layers, each with its own
  cache, and to several sequences in one call.
* **Generation.**  `Generate`, `Speculate`, `Together` and `SpeculateBatch` model greedy decoding,
  speculation with rollback, plain and ragged batches.  What a run emits is defined by the model, the prompt,
  the ending and the sink; that definition mentions no proposer and has one solution, and every loop is
  proved to meet it.
* **Conversations.**  `Keep` and `Session` model the cache kept between turns and whole sessions through it.
* **The scheduler and the server.**  `Slots`, `Schedule` and `Engine` model the slots, the queue and one step
  of the continuous-batching engine; `Server` models the loop behind the socket, where what arrives and who has
  hung up may depend on everything the clients have been sent so far; `Wire` models the chunked response body
  (section 7.1 of RFC 9112).
* **Text.**  `Utf8`, `Detokenize`, `Tokens` and `Bpe` model the byte grammar (section 4 of RFC 3629), the
  streaming decoder, the byte-level alphabet and byte-pair encoding by rank.
* **Measurement scripts.**  `Acceptance` models the teacher-forced replay and its exactness; `Runs` the ragged
  run layout.

Conventions worth knowing: a cache *holds* a position when its buffers are the ones the fed ids call for;
`Position` pairs those ids with how far its windows can still be rewound.  A predicate of the form
`forall key :: Key(key) ==> Body` is a definition kept folded until `assert Key(0)` opens it.  Ghost
parameters beside a method's real ones say which abstract rows a flat buffer is.  Arithmetic is over `real`
and both sides of every equation are the same sums and products taken alike, so no rounding model is
needed; `exp` is any function that is positive.  A masked entry is a constructor of its own rather than a
large negative number, and its weight is exactly zero, which is used only for rows shown to hold an unmasked
key.

Two promises of the code hold only under a condition, which is proved exactly:

* A chunked body reads back as its frames if and only if no frame is empty, because an empty chunk is
  spelled as the last chunk is (`Wire.BodyReads`, `Wire.ReadsUpTo`).  Every frame the body is handed is
  non-empty.
* A cold session prefills every position once if and only if no prompt before the last, less its last token,
  ran past the bound a kept conversation may have, which the session's own numbers say before it begins
  (`Sessions.PrefilledExactly`; the general count is `Sessions.PrefilledOnce`, and `Sessions.ForgottenTurn` is a
  session that fails it).

## Model

| member | source | states |
|---|---|---|
| Sconv.Forward | slop/crates/inkling-core/src/sconv.rs:296-360 | each row of a call is answered with itself and the convolution of every row shown so far, whatever a rewind left at the front of the buffer, and the window left is theirs; padding is shown as zeros, and with none the answers are the whole sequence's own |
| Sconv.PaddingIsInert | slop/crates/inkling-core/src/sconv.rs:290-294 | what a padded row holds changes no other row's answer and nothing the state keeps |
| Sconv.AnswersCausal | slop/crates/inkling-core/src/sconv.rs:349-360 | rows fed later change no answer already given |
| Sconv.ConvState.constructor | slop/crates/inkling-core/src/sconv.rs:195-201 | zeros are the window of a sequence that has not begun, with all the slack to give back |
| Sconv.ConvState.Rewind | slop/crates/inkling-core/src/sconv.rs:129-138 | within what it can give back, the window becomes the one the sequence had that many inputs ago, and the zero padding past its start |
| Sconv.ConvState.Mark | slop/crates/inkling-core/src/sconv.rs:233-235 | a mark is the window of the sequence it was taken over |
| Sconv.ConvState.Resume | slop/crates/inkling-core/src/sconv.rs:239-247 | whatever has gone through since, the window is again the marked sequence's |
| Sconv.WindowRead | slop/crates/inkling-core/src/sconv.rs:205-212 | the rows the convolution reads are the last real inputs, zero-padded before the start, wherever in the buffer they lie |
| Sconv.WindowsAlike | slop/crates/inkling-core/src/sconv.rs:205-207 | two windows at the end of one sequence read alike however each came to be there |
| Mask.Forward | slop/crates/inkling-core/src/mask.rs:97-130 | the nested writes fill the whole additive mask, one line a query, head and batch member |
| Mask.EveryIndex | slop/crates/inkling-core/src/mask.rs:97-150 | at every flat index the mask holds the four-way rule for that query's backward distance |
| Mask.BandedMask.UnmaskedIsSeen | slop/crates/inkling-core/src/mask.rs:136-150 | an entry is unmasked exactly where the key is neither in the future nor past the window, so a row whose own key is in the span holds one |
| Heads.SplitHeads | slop/crates/inkling-core/src/attention.rs:1190-1205 | the copy loop yields rows-by-heads turned into heads-by-rows |
| Heads.MergeHeads | slop/crates/inkling-core/src/attention.rs:1209-1226 | the copy loop yields heads-by-rows turned back into rows-by-heads |
| Heads.MergeUndoesSplit | slop/crates/inkling-core/src/attention.rs:1190-1226 | merging undoes splitting on every buffer of whole rows |
| Heads.SplitUndoesMerge | slop/crates/inkling-core/src/attention.rs:1190-1226 | splitting undoes merging on every buffer of whole rows |
| Attend.Forward | slop/crates/inkling-core/src/attention.rs:98-145 | the loops compute, for every query head, its softmax-weighted values over the KV head it shares |
| Attend.GroupedIsGathered | slop/crates/inkling-core/src/attention.rs:85-145 | grouped attention is ungrouped attention over keys and values gathered by `head / (heads / kv_heads)` |
| Attend.MaskedKeysCannotReach | slop/crates/inkling-core/src/attention.rs:98-145 | a row with an unmasked key is answered out of its unmasked keys and values alone |
| Attend.AnswerOfLonger | slop/crates/inkling-core/src/attention.rs:98-145 | trailing masked keys change no answer, given one key may be read |
| Attention.OnTheCpu | slop/crates/inkling-core/src/attention.rs:500-518 | over the cached span each query of a call is answered what its own position answers in the sequence alone |
| Attention.Forward | slop/crates/inkling-core/src/attention.rs:1010-1140 | a call following any fed rows returns the sequence's own answers for its rows and leaves keys, values and both windows at the longer sequence |
| Attention.SpanAnswer | slop/crates/inkling-core/src/attention.rs:1093-1140 | reading the whole cached span instead of the causal prefix changes nothing |
| Attention.BeyondReach | slop/crates/inkling-core/src/attention.rs:1093-1140 | what a query may not see, a future key or one older than the sliding window, cannot reach its answer |
| Attention.KeysCausal | slop/crates/inkling-core/src/attention.rs:1093-1140 | keys and values already cached are the longer sequence's |
| Attention.AnswersCausal | slop/crates/inkling-core/src/attention.rs:1093-1140 | feeding more changes no answer already given |
| Attention.AttentionCache.constructor | slop/crates/inkling-core/src/attention.rs:758-769 | an empty cache stands at the empty sequence |
| Attention.AttentionCache.Rewind | slop/crates/inkling-core/src/attention.rs:851-861 | keys, values and both windows are those of the sequence without its last rows |
| Attention.AttentionCache.Cut | slop/crates/inkling-core/src/attention.rs:871-877 | each vector is cut to whole rows by a stride read off it, on a held span and on an empty one |
| Attention.StrideIsExact | slop/crates/inkling-core/src/attention.rs:871-877 | the stride division is exact on the held and on the empty-vector path |
| Attention.AttentionCache.Mark | slop/crates/inkling-core/src/attention.rs:888-890 | a mark records the position and both windows |
| Attention.AttentionCache.Resume | slop/crates/inkling-core/src/attention.rs:897-907 | after any later calls the marked keys, values and windows are back |
| Layers.Run | slop/crates/inkling-core/src/layer.rs:656-693 | one call of a layer returns the answers the whole sequence has at its rows and leaves the layer's cache at the longer sequence |
| Layers.LayerCausal | slop/crates/inkling-core/src/layer.rs:656-709 | every stream inside a layer is settled by the rows up to its own |
| Layers.PiecesAreWhole | slop/crates/inkling-core/src/layer.rs:656-709 | for every sequence and every split, the pieces' answers laid end to end are the whole's |
| Layers.SameState | slop/crates/inkling-core/src/layer.rs:376-380 | two caches that hold one sequence have the same keys, values and count, and read the same rows in all four windows, however each was fed or rewound |
| Layers.Severally | slop/crates/inkling-core/src/layer.rs:621-646 | each seat of a batched call is answered what it is answered alone, in seat order, and each cache advanced by its own rows |
| Layers.DecoderCache.constructor | slop/crates/inkling-core/src/layer.rs:404-415 | a new layer cache stands at the empty sequence in all of its places |
| Layers.DecoderCache.Rewind | slop/crates/inkling-core/src/layer.rs:447-451 | attention and both outer windows stand together at the shorter sequence |
| Layers.DecoderCache.Mark | slop/crates/inkling-core/src/layer.rs:459-465 | a mark holds all four windows and the count at one position |
| Layers.DecoderCache.Resume | slop/crates/inkling-core/src/layer.rs:468-472 | after any later calls the layer stands again where the mark was taken |
| Model.Net.ActsCausal | slop/crates/inkling-core/src/model.rs:437-486 | at any depth of the stack, feeding more changes nothing at positions already fed |
| Model.Net.NormedCausal | slop/crates/inkling-core/src/model.rs:437-506 | so a position's normed state, and the id taken from it, are those of the ids up to it |
| Model.SameStack | slop/crates/inkling-core/src/model.rs:205-311 | the same of every layer of two whole caches that hold the same ids |
| Model.ModelCache.constructor | slop/crates/inkling-core/src/model.rs:250-263 | one empty cache a layer, all at one position, sharing nothing |
| Model.ModelCache.Rewind | slop/crates/inkling-core/src/model.rs:278-282 | every layer gives back the same rows |
| Model.ModelCache.Mark | slop/crates/inkling-core/src/model.rs:297-299 | every layer is marked at one position |
| Model.ModelCache.Resume | slop/crates/inkling-core/src/model.rs:302-311 | every layer is back where the mark was, whatever was fed since |
| Batches.RunLayer | slop/crates/inkling-core/src/model.rs:158-178 | one layer over a call moves every sequence's own cache of that layer and no other |
| Batches.ForwardBatch | slop/crates/inkling-core/src/model.rs:459-486 | the stack over several sequences leaves each cache on by its own ids and returns each one's own rows, in batch order |
| Generation.PassAnswers | slop/crates/inkling-core/src/generate.rs:410-426 | a pass over many rows takes at each of them what a decode step would have taken there |
| Generation.TailedOne | slop/crates/inkling-core/src/generate.rs:380-426 | one sequence's pass: the last rows' ids and, if chained, every normed row, as functions of everything fed |
| Generation.Prefill | slop/crates/inkling-core/src/generate.rs:620-631 | a prefill leaves the cache standing at the prompt |
| Generation.AskedOf | slop/crates/inkling-core/src/generate.rs:583-597 | the ids of the last rows of a batched call are the sequences' own, laid end to end |
| Generation.VerifyBatch | slop/crates/inkling-core/src/generate.rs:473-507 | every sequence is answered at each of its rows what it would be alone, beside where its rows start |
| Generation.Share | slop/crates/inkling-core/src/generate.rs:473-507 | the call's ids are dealt back to the sequences whose rows they answer |
| Generation.OwnRows | slop/crates/inkling-core/src/generate.rs:249-262 | the normed rows from `Picked.first` on are that sequence's own and no other's |
| Generation.StepAdmitting | slop/crates/inkling-core/src/generate.rs:535-574 | seats filling and seats decoding in one call: each decoder's next id, in the decoders' order, whatever the fillers fed |
| Speculation.Banked | slop/crates/inkling-core/src/generate.rs:88-97 | the longest agreeing prefix of the guesses, and the first answer that disagreed |
| Speculation.RoundIsGreedy | slop/crates/inkling-core/src/generate.rs:88-97 | whatever was guessed, what a round banks is what greedy decoding says next |
| Speculation.Emit | slop/crates/inkling-core/src/generate.rs:780-794 | tokens are offered until the sink, the end-of-sequence id or the budget ends the run, in that order of precedence, and nothing is offered after |
| Speculation.OneRound | slop/crates/inkling-core/src/generate.rs:759-799 | one round emits at least one token, rewinds within its slack, and leaves the cache at the prompt and every token but the last |
| Speculation.Speculate | slop/crates/inkling-core/src/generate.rs:747-822 | for any proposer within the slack and any sink, the tokens, the stop and the cache position are those of a run in which no proposer appears; what the proposer is handed is the sequence, each position once with its own state, and it is never more than one round behind what has been emitted |
| Speculation.GeneratedOnce | slop/crates/inkling-core/src/generate.rs:685-822 | there is one such run: any two agree on every token and on the stop |
| Speculation.TiledMore | slop/crates/inkling-core/src/generate.rs:219-239 | a committed round extends what a proposer has been handed by exactly its own rows |
| Speculation.OfferedMore | slop/crates/inkling-core/src/generate.rs:797-815 | each round is offered as deep a guess as the proposer has, and never deeper than the tokens still owed past the one in hand |
| Speculation.Stream | slop/crates/inkling-core/src/generate.rs:699-708 | streaming is speculation by a proposer that guesses nothing |
| Speculation.Generate | slop/crates/inkling-core/src/generate.rs:1096-1113 | exactly `count` greedy tokens, and the cache one behind them |
| Together.Gather | slop/crates/inkling-core/src/generate.rs:865-885 | filtering the caches by who is live and zipping with the feeds pairs each live cache with its own feed |
| Together.StepLive | slop/crates/inkling-core/src/generate.rs:451-457 | one decode step gives each live sequence its own next token and leaves the rest alone |
| Together.GenerateBatch | slop/crates/inkling-core/src/generate.rs:840-886 | every sequence ends with its own count of its own greedy tokens and its cache where it would stand alone, counts of zero included |
| Together.AloneOrTogether | slop/crates/inkling-core/src/generate.rs:840-886 | any run of one prompt alone with no sink and no end id has exactly the tokens it is given in a batch |
| Ragged.Bank | slop/crates/inkling-core/src/generate.rs:1009-1015 | a sequence's round is greedy, cut to what it still owes, and accounts for its cache |
| Ragged.Settle | slop/crates/inkling-core/src/generate.rs:1009-1023 | each sequence rewinds its own rejected rows out of its own cache and no other's |
| Ragged.OwnHidden | slop/crates/inkling-core/src/generate.rs:1025-1043 | the rows a sequence is chained from are sliced out of the call at its own first row |
| Ragged.Place | slop/crates/inkling-core/src/generate.rs:1058-1092 | proposals land on the sequences asked about; the others have none |
| Ragged.Asking | slop/crates/inkling-core/src/generate.rs:1058-1092 | guesses within the slack for every sequence, and each sequence that still owes is asked about once, in a round that takes up exactly where its last one stopped |
| Ragged.SpeculateBatch | slop/crates/inkling-core/src/generate.rs:918-1046 | for any batch proposer, any counts and any order of dropping out, each sequence gets what `GenerateBatch` grants it, and the rounds handed out for it are that sequence, each position once with its own state and at the depth it was owed, to within one round of its end |
| Keeping.Kept.Matching | slop/crates/inkling-core/src/keep.rs:140-145 | all of the kept ids or none, and never the whole of the prompt |
| Keeping.Kept.Opened | slop/crates/inkling-core/src/keep.rs:153-159 | after opening, the cache sits at the end of a proper prefix of the prompt |
| Keeping.Kept.Keep | slop/crates/inkling-core/src/keep.rs:171-179 | ids past the bound are forgotten, others recorded; the cache sits at the end of whatever is recorded |
| Keeping.Kept.Forget | slop/crates/inkling-core/src/keep.rs:243-246 | wherever the cache had got to, nothing is kept and the next one is empty |
| Keeping.Kept.Turn | slop/crates/inkling-core/src/keep.rs:193-229 | every turn streams the run its prompt has from an empty cache, and leaves the cache at the prompt less its last token, or forgotten past the bound |
| Sessions.Session.PromptsExtend | slop/crates/inkling-core/src/workload.rs:108-121 | a turn's prompt is settled by the replies before it and every later one extends it |
| Sessions.Run | slop/crates/inkling-cli/src/session.rs:47-84 | over a whole session each turn is its prompt's own greedy reply and reuses exactly what the previous turn left |
| Sessions.PrefilledOnce | slop/crates/inkling-cli/src/session.rs:47-84 | positions prefilled over the first turns add up to the last of their prompts less one, plus what was forgotten on the way |
| Sessions.PromptLength | slop/crates/inkling-core/src/workload.rs:108-121 | turn by turn a prompt is as long as the session says before it begins |
| Sessions.PrefilledExactly | slop/crates/inkling-cli/src/session.rs:47-84 | a cold session of n turns prefills exactly its last prompt less one if and only if n is 1 or its own numbers say `opening + (n - 2) * (generated + added) - 1 <= bound` |
| Sessions.ForgottenTurn | slop/crates/inkling-cli/src/session.rs:47-84 | two turns and a bound of zero at which that count fails |
| Sessions.PromptFor | slop/reference/scripts/bench_session.py:61-76 | written-out repetitions cut to length give the same prompts turn by turn |
| Slots.SeatFor | slop/crates/inkling-core/src/schedule.rs:716-734 | none exactly where no slot is free; otherwise the longest match, else the lowest empty, else the longest vacated, ties to the lowest |
| Slots.Enter | slop/crates/inkling-core/src/schedule.rs:749-781 | an admitted request starts at what its slot already held of its prompt |
| Slots.Leave | slop/crates/inkling-core/src/schedule.rs:666-680 | a slot left after its prompt is in keeps the conversation at that position; one left before it is forgotten |
| Slots.Order | slop/crates/inkling-core/src/schedule.rs:526-541 | fillers before decoders, each in slot order, everyone seated once |
| Slots.MarkAll | slop/crates/inkling-core/src/schedule.rs:543-561 | every decoding seat holds a mark of where its conversation will be kept |
| Slots.Deal | slop/crates/inkling-core/src/schedule.rs:563-588 | each seat is dealt its own next rows, a filler never its prompt's last, and fillers together no more than the budget or a row apiece |
| Slots.WithinBudget | slop/crates/inkling-core/src/schedule.rs:563-588 | shares and the handed-out remainder add up to no more than the budget |
| Slots.FeedSlots | slop/crates/inkling-core/src/schedule.rs:593-602 | one pass moves exactly the seated caches, each by its own rows, and answers each decoder the token after its own sequence |
| Slots.Arrived | slop/crates/inkling-core/src/schedule.rs:604-623 | told what its cache was fed, a resident says where its cache is: prompt rows in any chunks, then the last as a decoding row |
| Scheduling.Submitted | slop/crates/inkling-core/src/schedule.rs:417-423 | a queued request takes a ticket nothing held has, and the book gains that entry alone |
| Scheduling.LeftBook | slop/crates/inkling-core/src/schedule.rs:666-680 | vacating a slot takes its ticket and no other off the book |
| Scheduling.AdmitAll | slop/crates/inkling-core/src/schedule.rs:716-781 | first in, first out until no slot is free or no request waits, requests that want no token walked past; the report is the others in order, each in the slot its prompt chooses of those still free, reusing exactly what is recorded there of it, and no other slot, nor what it records, has changed |
| Scheduling.ChosenOn | slop/crates/inkling-core/src/schedule.rs:716-734 | a request admitted behind others chose among the slots as the others left them |
| Scheduling.Settle | slop/crates/inkling-core/src/schedule.rs:604-624 | each decoder's token is reported against its own ticket, in order, with the firsts and the finished |
| Scheduling.AnswersAre | slop/crates/inkling-core/src/schedule.rs:616-622 | a request is reported finished if and only if the token just produced was its last |
| Scheduling.VacateDone | slop/crates/inkling-core/src/schedule.rs:626-680 | exactly the finished leave their slots, each slot left under a newer stamp than any before the step and recording what its conversation may be resumed from, or nothing; every other slot is as it was |
| Scheduling.CallSteps | slop/crates/inkling-core/src/schedule.rs:509-634 | a step gives each held request at most one token, the next of its own generation, and finishes it exactly at its count |
| Scheduling.CallFirsts | slop/crates/inkling-core/src/schedule.rs:604-624 | the tickets reported as begun are those given their first token by it, in order |
| Engine.Continuous.constructor | slop/crates/inkling-core/src/schedule.rs:358-377 | an engine holding nothing |
| Engine.Continuous.Submit | slop/crates/inkling-core/src/schedule.rs:417-423 | a fresh ticket, owed its whole request |
| Engine.Continuous.Release | slop/crates/inkling-core/src/schedule.rs:452-464 | that ticket leaves the book, seated or queued; its slot, if it has one, is left recording what may be resumed, every other slot is as it was, and an unknown ticket changes nothing |
| Engine.Continuous.Idle | slop/crates/inkling-core/src/schedule.rs:488-490 | idle exactly when no ticket is held |
| Engine.Continuous.Admit | slop/crates/inkling-core/src/schedule.rs:716-781 | no request is left waiting while a slot is free, and the report names those taken off the queue that want a token, in order, each in the slot its prompt chooses and from where what is recorded there ends |
| Engine.Continuous.Step | slop/crates/inkling-core/src/schedule.rs:509-634 | one step of the whole engine, of work strictly less: the queue's front seated where `SeatFor` chooses, then everyone seated carried on by one call, once, more of its prompt in or one more token, the prompt rows reported being those that went in; whoever had its last token leaves its slot recording its conversation |
| Engine.RowsGained | slop/crates/inkling-core/src/schedule.rs:563-602 | the prompt rows a call reports are what its residents have gained by it |
| Engine.OrderCounts | slop/crates/inkling-core/src/schedule.rs:526-541 | a call carries everyone seated, each once |
| Server.Take | slop/crates/inkling-cli/src/serve.rs:875-903 | a seat opens one line under its own ticket, a release stops its own line and no other |
| Server.SendToken | slop/crates/inkling-cli/src/serve.rs:920-939 | one token to whoever waits for it: the end-of-sequence id ends its line, a receiver that has gone frees its seat |
| Server.CloseAll | slop/crates/inkling-cli/src/serve.rs:940-945 | each finished request still waited for is told it ran out of budget, once |
| Server.Dispatched | slop/crates/inkling-cli/src/serve.rs:913-945 | after a step's tokens and endings, those waited for are exactly those the engine holds, and each line is a faithful telling of its own request |
| Server.TokenLine | slop/crates/inkling-cli/src/serve.rs:920-939 | end-of-sequence wins over budget when both fall on one token, and nothing is sent after an ending |
| Server.TellingRelease | slop/crates/inkling-cli/src/serve.rs:684-694 | a release, duplicate, late or for a ticket never issued, reaches only its own line |
| Server.AwaitOne | slop/crates/inkling-cli/src/serve.rs:848-861 | the loop blocks when and only when nothing is held, and is over only when nothing will ever arrive |
| Server.Turn | slop/crates/inkling-cli/src/serve.rs:846-871 | after every iteration the live map's tickets are exactly those the engine holds |
| Server.ServedMore | slop/crates/inkling-cli/src/serve.rs:875-903 | every message found extends the history: its lines have only grown, a seat opens the next line, and a ticket is freed by the look that found its release |
| Server.Stepping | slop/crates/inkling-cli/src/serve.rs:836-872 | for looks that find any function of the lines so far, the loop ends once everyone is gone, with one line per request found, in order, each told faithfully and over; a line was freed only by a release of its ticket found when it was already all that it is; and every client that hangs up and gives its ticket back only once its reading is over is given the run its prompt has alone |
| Server.HeardOut | slop/crates/inkling-cli/src/serve.rs:913-945 | a client that takes every token and was not cut off heard its whole run and one ending |
| Server.Read | slop/crates/inkling-cli/src/serve.rs:755-779 | a connection thread forwards tokens until its sink declines, the line ends, or the ending arrives |
| Server.Answer | slop/crates/inkling-cli/src/serve.rs:724-786 | unless its line was cut off while it was still reading, a connection is given the tokens and the stop streaming gives its prompt alone; one whose sink declined closes as that run would even so |
| Server.AllGiven | slop/crates/inkling-cli/src/serve.rs:755-785 | whoever gives a ticket back only once its reading is over, as leaving the scope of a seat does, is given what its prompt is given alone |
| Server.FreedOver | slop/crates/inkling-cli/src/serve.rs:684-694 | such a client's line is not freed before it has been read to an end |
| Server.OverStays | slop/crates/inkling-cli/src/serve.rs:760-779 | a reading that has come to an end comes to the same whatever is sent after |
| Server.ServedAsStreamed | slop/crates/inkling-cli/src/serve.rs:1719-1737 | a served connection and the same prompt streamed alone come to the same tokens and the same stop |
| Server.Ask | slop/crates/inkling-cli/src/serve.rs:724-752 | a request that wants no token is answered without a seat; any other is put on the channel |
| Server.Channel.Receive | slop/crates/inkling-cli/src/serve.rs:852-861 | the next message however many looks it takes, and none only once nothing is left |
| Wire.ChunkReads | slop/crates/inkling-cli/src/serve.rs:162-164 | a chunk followed by anything reads back as what it was made from |
| Wire.LastIsEmpty | slop/crates/inkling-cli/src/serve.rs:162-168 | an empty chunk is spelled as the last chunk is |
| Wire.BodyReads | slop/crates/inkling-cli/src/serve.rs:162-168 | a complete body reads as exactly its frames, to its end, if and only if no frame is empty |
| Wire.ReadsUpTo | slop/crates/inkling-cli/src/serve.rs:162-168 | with an empty frame in it a client reads up to that frame and no further |
| Wire.CutIsUnread | slop/crates/inkling-cli/src/serve.rs:162-168 | cut short anywhere, a body of non-empty frames is no complete body |
| Wire.Body.Write | slop/crates/inkling-cli/src/serve.rs:306-326 | no write follows a failed one; a write that fails leaves a beginning of its text on the wire |
| Wire.Body.Emit | slop/crates/inkling-cli/src/serve.rs:377-382 | a frame of a stream is one chunk further on the wire, or the body is disconnected |
| Wire.Body.Push | slop/crates/inkling-cli/src/serve.rs:334-342 | generation goes on exactly while no stop sequence has matched and the frame went out |
| Wire.Body.Fail | slop/crates/inkling-cli/src/serve.rs:386-389 | a failure ends the generation and not the connection |
| Wire.Body.CloseStream | slop/crates/inkling-cli/src/serve.rs:403-450 | a stream that held is a complete chunked body of exactly its frames, ended once; one that did not is the head and a beginning of the rest |
| Wire.Body.CloseCollected | slop/crates/inkling-cli/src/serve.rs:403-450 | a collected body goes out once with its length, the reply or the failure |
| Wire.Open | slop/crates/inkling-cli/src/serve.rs:283-302 | a connection that will not take the head has no body |
| Wire.Received | slop/crates/inkling-cli/src/serve.rs:403-450 | what a client makes of the wire: every frame of a stream that was all sent, and otherwise no complete body |
| Wire.Respond | slop/crates/inkling-cli/src/serve.rs:283-450 | over any list of tokens and failures and one close, the client reads the frames that went out or no complete body; where no write was refused those are all that were handed over, and the ending unless something failed |
| Utf8.Encoded | slop/crates/inkling-core/src/detokenize.rs:64-112 | every scalar value encodes to one well-formed sequence that decodes to it |
| Utf8.SpelledOnce | slop/crates/inkling-core/src/detokenize.rs:64-112 | every well-formed sequence is the encoding of what it decodes to |
| Utf8.PrefixFree | slop/crates/inkling-core/src/detokenize.rs:82-105 | no character begins another |
| Utf8.DecodedOnce | slop/crates/inkling-core/src/detokenize.rs:82-112 | bytes have one lossy decoding |
| Utf8.IncompleteBegins | slop/crates/inkling-core/src/detokenize.rs:82-105 | what is held back is a proper beginning of a character and nothing in it is one yet |
| Utf8.InvalidIsRun | slop/crates/inkling-core/src/detokenize.rs:82-105 | what is replaced is a maximal run no continuation can rescue |
| Detokenize.LossyDecodes | slop/crates/inkling-core/src/detokenize.rs:82-112 | the one-shot decoding is the grammar's, one U+FFFD per maximal invalid run |
| Detokenize.FeedSplit | slop/crates/inkling-core/src/detokenize.rs:82-105 | feeding bytes in two pieces is feeding them in one |
| Detokenize.HeldBegins | slop/crates/inkling-core/src/detokenize.rs:71-105 | pending is always a proper prefix of one well-formed character, at most three bytes |
| Detokenize.FromUtf8 | slop/crates/inkling-core/src/detokenize.rs:82-105 | validation finds the valid prefix and the run past rescue, if any |
| Detokenize.FromUtf8Lossy | slop/crates/inkling-core/src/detokenize.rs:108-112 | decoded with nothing refused, bytes come to what the grammar's lossy decoding makes of them |
| Detokenize.Utf8Stream.Push | slop/crates/inkling-core/src/detokenize.rs:82-105 | however the bytes were cut, what has been shown is all that they settle |
| Detokenize.Utf8Stream.Finish | slop/crates/inkling-core/src/detokenize.rs:108-112 | with it, the whole stream has come to the lossy decoding of all its bytes |
| Detokenize.Stream | slop/crates/inkling-core/src/detokenize.rs:64-112 | the pushes of any chunking followed by finish decode the concatenation |
| Detokenize.TextSurvives | slop/crates/inkling-core/src/detokenize.rs:64-112 | encoded text streams back as itself with nothing held |
| Tokens.LiftedBytes | slop/crates/inkling-core/src/detokenize.rs:24-42 | the loop collects every byte whose character is not its own number, rising, and fills the table |
| Tokens.Alphabet | slop/crates/inkling-core/src/detokenize.rs:20-52 | the alphabet is a bijection between bytes and its characters |
| Tokens.PieceBytes | slop/crates/inkling-core/src/detokenize.rs:60-62 | a piece's bytes are the only ones that spell it, or nothing spells it |
| Tokens.SpelledApart | slop/crates/inkling-core/src/detokenize.rs:46-62 | lifted to strings the alphabet is still injective |
| Tokens.ByteLevelChars | slop/reference/scripts/inkling_ref.py:187-201 | the script's table is the same alphabet, byte for byte |
| Bpe.FindBest | slop/reference/scripts/compare_tokenizers.py:109-117 | the pair of lowest rank, leftmost among equals, or none mergeable |
| Bpe.MergeParts | slop/reference/scripts/compare_tokenizers.py:102-119 | merging terminates, loses no byte, and leaves no mergeable pair |
| Bpe.MergedOnce | slop/reference/scripts/compare_tokenizers.py:102-119 | the ranks are the merge order: there is one outcome |
| Bpe.MergeByRank | slop/reference/scripts/compare_tokenizers.py:102-119 | ids exactly when every final part has a rank, naming those parts; always when every byte has one |
| Bpe.Encoding | slop/reference/scripts/compare_tokenizers.py:122-127 | each piece of the split tokenized on its own, and nothing of the text lost |
| Bpe.Decoding | slop/reference/scripts/inkling_ref.py:208-212 | ids back to pieces, to bytes and through the stream decode the parts they name |
| Bpe.RoundTrip | slop/reference/scripts/compare_tokenizers.py:122-127 | every text comes back from its ids, given every byte has a rank and the split loses nothing |
| Bpe.BytePieces | slop/reference/scripts/inkling_ref.py:215-219 | one piece a byte of the text's encoding |
| Bpe.BytePiecesDecode | slop/reference/scripts/inkling_ref.py:215-219 | streaming those pieces gives the text and nothing else |
| Acceptance.Predictions | slop/reference/scripts/mtp_acceptance.py:213-241 | each head's row-by-row replay over the true tokens guesses what it guesses there, one position fewer a head |
| Acceptance.ReplayIsExact | slop/reference/scripts/mtp_acceptance.py:9-26 | a chain fed its own guesses believes the truth exactly as long as every teacher-forced guess hits |
| Acceptance.ChainBanksTheRun | slop/reference/scripts/mtp_acceptance.py:9-26 | what a chained round would bank at a position is exactly the longest run of leading hits |
| Acceptance.RunIsBanked | slop/reference/scripts/mtp_acceptance.py:9-26 | whatever token comes after the guesses, any round `banked` could return from them is the run of leading hits and one more |
| Acceptance.BankedAgreed | slop/crates/inkling-core/src/generate.rs:88-97 | what `banked` keeps is what agrees, and one more |
| Acceptance.Accepted | slop/reference/scripts/mtp_acceptance.py:244-252 | hit masks over the positions every depth can be scored on |
| Acceptance.Curves | slop/reference/scripts/mtp_acceptance.py:255-262 | marginal and joint fractions of those masks |
| Acceptance.JointsAreRuns | slop/reference/scripts/mtp_acceptance.py:255-262 | joint counts summed over depths are leading runs summed over positions |
| Acceptance.Report | slop/reference/scripts/mtp_acceptance.py:255-292 | the expected tokens of a round, one and the joint fractions, times the positions, is a token a position and the leading runs of all of them |
| Acceptance.Measure | slop/reference/scripts/mtp_acceptance.py:213-304 | as many masks as there are heads to score within the text, over as many positions as the last of them reaches; each bit is whether that head guessed that token, the curves are its fractions, and banking a chained round at any position gives its leading run and one more |
| Runs.Increasing | slop/reference/scripts/qmm_probe.py:76-83 | every boundary is past the one before it |
| Runs.ExpandedRuns | slop/reference/scripts/qmm_probe.py:84 | expanding rising boundaries gives as many rows as the last of them says, sorted, each in its own expert's run |
| Runs.LaidOut | slop/reference/scripts/qmm_probe.py:63-84 | there is a layout exactly when the mean run is longer than the tile, and it has one entry a row, sorted, naming every expert |

## Left out

- Metal and mlx backends, device slots and `DecoderDevice`: foreign code; only the CPU path is modelled, except that the cut of an empty key vector, which the device path leaves behind, is covered by `Attention.AttentionCache.Cut`.
- Rounding, tolerances and fixture comparisons: arithmetic is over `real`, and log scaling is an arbitrary factor of the position.
- Projections, norms, the MLP and its expert router, the embedding (with its optional norm) and the head: any row-wise operators of the right width; `pick` is any function from a normed row to an id.
- Profiling scopes, timings and `Served`'s bookkeeping: they decide nothing.
- Proposer and sink state: a proposer is any function of everything it has been handed, and a sink any function of the tokens it has been offered, which is what any deterministic state of theirs comes to.
- A sink that panics, and thread and channel failures other than a receiver or every sender being gone: not modelled.
- Speculation.Speculate: asks only that no proposal is longer than the slack the cache keeps, which is what rolling one back needs; the loop does not hold a proposer to the depth it was offered, and nor does the model.
- Server.Stepping: what the threads behind the channel do is a sequence of looks, each any function of the lines as they then stand, and a receiver that has gone is any function of what it has been sent; threads are modelled no further, and requests that want no token never reach the channel, as `Server.Ask` shows.
- Server.Answer: what a connection writes to its socket is `Wire`'s subject, and the sink here stands for it.
- Wire.Body.Push: stop-sequence matching, channel routing and rendering are outside the model; a frame, and whether a stop sequence has matched, are parameters, and every frame is non-empty.
- Wire.CutIsUnread: the reading side knows neither chunk extensions nor trailers, which this server never writes.
- Detokenize.FromUtf8: stands for the standard library's validator, and is proved against the grammar rather than assumed.
- Bpe.Encoding: the split of a text into pieces is a parameter, so what the split loses, if anything, is outside it.
- Acceptance.Predictions: a head is any function of the rows and tokens up to its own position; the variants of norm and embedding the script compares are choices of that function.
- The HTTP hosts and clients, command lines, configuration, checkpoint mapping, quantisation and fixture scripts: input and output, or properties one branch settles.

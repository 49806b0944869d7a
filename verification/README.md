# The streaming speech engine and its byte pipeline, modelled and proved

This project models, in Dafny, the parts of the repository where fast stateful
code has to agree with something much simpler, and proves that it does:

- **Batched reading.** Many listeners share one stacked key/value cache per
  layer (`StackedCache`), a batcher adds, steps and drops them (`Batching`), and
  for every interleaving each stream yields the frames it yields alone
  (`Parity`), which are also those of the one-reading path (`Reference`).
- **Attention.** Masked, tiled, chunked and windowed softmax attention over the
  reals, with an abstract positive exponential (`Softmax`, `Sdpa`), and the ring
  buffer of the last tokens, written in place (`RingAttention`).
- **Streaming operators.** Padded convolution, overlap-add transposed
  convolution (`Conv`), and their composition with residual blocks and the
  windowed transformer into the whole decoder (`Decoder`): any cutting of the
  latents into calls gives the samples of one call.
- **The scheduler.** What one frame does to a reading, at any temperature
  (`Reading`); the loop over a real batch (`Scheduler`); the same loop seen from
  its listeners, with safety over whole runs (`Desk`) and exactly when and how
  soon each of them is served (`Service`); and the simulation that carries those
  theorems to the loop (`Listeners`) and on to the client of a response
  (`Responses`). Slots and queues under concurrent submission are a state machine
  of their own (`Admission`).
- **Bytes.** Lead trimming and per-segment encoding (`Encode`), the
  length-prefixed response (`Streaming`) and the mp3 re-framer (`Mp3Frames`).
- **Smaller cores.** Pause markers (`Pause`), the SentencePiece reader
  (`SentencePiece`) and the cost outbox with crashes and several replicas
  (`Outbox`).

How things are represented. Tensors are sequences of reals, one vector per head
and token; the network is row-wise functions (`FlowLm.Net`). The noise drawn for
a frame is named by its stream and its number, so everything holds at any
temperature: a stream read alone is read with its own noise, and at temperature
zero (`FlowLm.NoiseFree`) its text and voice alone decide its frames. A listener
that leaves is a number of pieces it takes (`leavesAfter`): every later send
fails. Failures of the model step, of one frame, of a write or of an encoder are
inputs. Code points are bytes where positions are byte offsets. Sizes are
unbounded where 64-bit sizes cannot be reached, and bounded explicitly where a
32- or 64-bit width matters (length prefixes, varints, durations).

Where the code does not do what one would expect, it is followed, and what it
does is proved exactly:

- A sentence that cannot be prompted ends the reading of its text there, and a
  failed step or a frame that cannot be read ends for good the readings it
  hits, and no other. A listener that stays has, in time, all there is up to the
  first such sentence if and only if its own reading was not hit, whatever was
  before or around it, and its whole text if and only if every sentence can be
  prompted, too (`Service.ListenerServed`, `Service.WholeTextServed`,
  `Listeners.ServedInTime`). `Service.CutShort` is a text of three sentences
  whose last is never read.
- Encoding a voice passes step 0 to every chunk, which replicates the padding at
  each seam. That is one call on everything, for every kernel, if and only if
  the carried frames a tap reads are copies of the next chunk's first frame
  (`Conv.StepZeroIff`); `Conv.StepZeroShows` is a signal for which it is not.
- The SentencePiece reader can return an unknown id outside the vocabulary:
  `SentencePiece.UnkInRangeIff` says when, `SentencePiece.UnkOutOfRange` is a model
  it accepts. Where positions wrap at 64 bits it can also step back
  (`SentencePiece.NextFieldAdvancesIff`, `SentencePiece.NextFieldStays`).
- A failed step forgets every reading but leaves the streams in the batch; each
  is gone after the steps its limit still allows (`Listeners.StreamsLeave`).
- A stored attention ring of another capacity is read from its first column: it
  still ends its history if and only if the oldest token that fits is there
  (`RingAttention.ResizeKeepsIff`).

## Model

| member | source | states |
|---|---|---|
| Softmax.MaskedIsWindowed | apps/tts/crates/engine/src/modules/attention.rs:555-566 | a softmax over all columns plus a mask of minus infinity is the softmax over the columns the mask lets through, value for value |
| Softmax.ShiftInvariant | apps/tts/crates/engine/src/modules/attention.rs:417-422 | subtracting any number from every score, the running maximum for one, does not move the result |
| Softmax.WindowAttention | apps/tts/crates/engine/src/modules/attention.rs:387-430 | the per-row loop over a window of the cache computes softmax attention over exactly that window |
| Sdpa.MaskRowIsWindow | apps/tts/crates/engine/src/modules/sdpa.rs:129-171 | masking future keys and keys out of context leaves each query its own window of keys |
| Sdpa.SkippedMaskIsWindow | apps/tts/crates/engine/src/modules/sdpa.rs:4-18 | whenever the mask is skipped it would have let every key through |
| Sdpa.Tile | apps/tts/crates/engine/src/modules/sdpa.rs:89-122 | a tile of queries anywhere in the input gives each query its window |
| Sdpa.Attend | apps/tts/crates/engine/src/modules/sdpa.rs:36-126 | the one-pass and the tiled path both give every query attention over its window: they agree |
| Sdpa.ProbabilitiesBlend | apps/tts/crates/engine/src/modules/sdpa.rs:261-277 | weighting values by probabilities is normalising the weighted values |
| Sdpa.ChunkedQuery | apps/tts/crates/engine/src/modules/sdpa.rs:221-277 | scores and values taken piece by piece give the masked attention over their concatenation |
| Sdpa.AttendChunked | apps/tts/crates/engine/src/modules/sdpa.rs:175-280 | keys and values in any number of pieces give every query its window over the concatenated ones |
| StackedCache.StackedKv.AddRow | apps/tts/crates/engine/src/modules/attention.rs:476-514 | a new row holds its history; every other row keeps its own, whichever side had to be shifted |
| StackedCache.StackedKv.RemoveRow | apps/tts/crates/engine/src/modules/attention.rs:516-526 | exactly row i goes, the others keep their histories in order |
| StackedCache.StackedKv.Push | apps/tts/crates/engine/src/modules/attention.rs:528-547 | every row's history grows by its own token, with room made when the buffer is full |
| StackedCache.StackedKv.Attend | apps/tts/crates/engine/src/modules/attention.rs:550-591 | the masked path and the window loop both give each row attention over its own history |
| StackedCache.RowWritten | apps/tts/crates/engine/src/modules/attention.rs:537-545 | writing the shared column extends a right-aligned row by one token |
| StackedCache.RowPlaced | apps/tts/crates/engine/src/modules/attention.rs:488-499 | padding on both sides moves a right-aligned row without changing it |
| FlowLm.FrameCount | apps/tts/crates/engine/src/tts_model.rs:1115-1179 | a reading flagged first at frame e has min(limit, e + frames after + 1) frames |
| FlowLm.FrameCountWithoutEos | apps/tts/crates/engine/src/tts_model.rs:1115-1117 | a reading never flagged has exactly as many frames as its word count allows |
| FlowLm.FramesOnceFlagged | apps/tts/crates/engine/src/batch.rs:181-189 | once flagged, how many frames are left, later flags changing nothing |
| FlowLm.SeedUnused | apps/tts/crates/engine/src/models/flow_lm.rs:45-60 | at temperature zero a reading yields the same frames whatever is drawn for it |
| Batching.Batcher.Add | apps/tts/crates/engine/src/batch.rs:85-128 | a new independent reading of that text in that voice at the end of the batch under a new id, or nothing changed when it cannot be prompted |
| Batching.Batcher.Remove | apps/tts/crates/engine/src/batch.rs:130-143 | that reading goes from every layer; the others are untouched |
| Batching.Batcher.Advance | apps/tts/crates/engine/src/batch.rs:153-197 | one stacked pass gives every reading the frame and the state it would have reached alone |
| Batching.Batcher.DropDone | apps/tts/crates/engine/src/batch.rs:203-207 | removing done rows from the last to the first leaves exactly the rows not done, still aligned in every layer |
| Batching.Batcher.Step | apps/tts/crates/engine/src/batch.rs:147-209 | each reading's own next frame, and the batch of those not done |
| Batching.ForwardStacked | apps/tts/crates/engine/src/models/transformer.rs:189-195 | the stacked pass through all layers is, row by row, the pass of each reading through its own caches |
| Batching.ForwardStackedLayer | apps/tts/crates/engine/src/models/transformer.rs:108-123 | one layer for every row at once is that layer on each row |
| Batching.WithoutAt | apps/tts/crates/engine/src/batch.rs:130-134 | with distinct ids, removing by id is removing at the position found |
| Parity.StepKeeps | apps/tts/crates/engine/src/batch.rs:203-207 | a step leaves exactly the streams that were not done |
| Parity.GoneForGood | apps/tts/crates/engine/src/batch.rs:112-113 | a stream that left yields nothing more in any run: its id is not given again |
| Parity.NonInterference | apps/tts/crates/engine/src/batch.rs:85-209 | in every run, a stream yields the first frames it yields alone, as many as there are steps before its removal |
| Parity.ReadsAsAlone | apps/tts/crates/engine/examples/batch_parity.rs:1-3 | a text added at any moment of any run, in any voice, is read as it is read alone with the noise of its stream |
| Parity.OnlyOlderIds | apps/tts/crates/engine/src/batch.rs:112-113 | ids only grow, and no frame carries one not yet given |
| Parity.RunConcat | apps/tts/crates/engine/src/batch.rs:147-209 | a run of two parts is the second part run from where the first one stopped |
| Parity.Call | apps/tts/crates/engine/src/batch.rs:85-209 | each method of the batcher does to its readings what the specification says, frames included |
| Parity.Replay | apps/tts/crates/engine/examples/batch_parity.rs:16-35 | the batcher, driven through any list of calls, returns the frames of that run |
| Reference.AttendCausal | apps/tts/crates/engine/src/modules/attention.rs:242-244 | every head of every new token attends everything up to the token itself |
| Reference.GrowingKv.Append | apps/tts/crates/engine/src/modules/attention.rs:226-238 | the history grows by the new tokens in order, across reallocations |
| Reference.GrowingKv.Forward | apps/tts/crates/engine/src/modules/attention.rs:225-245 | a run of tokens through the doubling buffer: each answered over its past, and the history extended |
| Reference.ForwardAll | apps/tts/crates/engine/src/models/transformer.rs:169-186 | all layers on one token, at the position of the first, is the row-wise pass |
| Reference.GenerateSegment | apps/tts/crates/engine/src/tts_model.rs:1044-1180 | the one-reading loop yields the frames the stream yields alone |
| Reference.BatchParity | apps/tts/crates/engine/examples/batch_parity.rs:1-50 | the one-reading path and the batcher beside any others return the same frames, up to a removal: on the same noise at any temperature, and at temperature zero whatever either draws |
| Conv.StreamingConv1d.Forward | apps/tts/crates/engine/src/modules/conv.rs:90-136 | refuses an empty input or one that is no multiple of the stride, and otherwise convolves what was carried and the input and carries the last kernel - stride frames |
| Conv.ConvSplit | apps/tts/crates/engine/src/modules/conv.rs:110-132 | one call on a and one on b is one call on both |
| Conv.ConvIsChunkIndependent | apps/tts/crates/engine/src/modules/conv.rs:90-136 | for every cutting into multiples of the stride the outputs join to one convolution over the left-padded whole, replicated padding included, and the carried frames are its last ones |
| Conv.StepZeroIff | apps/tts/crates/engine/src/tts_model.rs:638-643 | when every call is given step 0 in replicate mode, the outputs are those of one call for every kernel if and only if at each seam the carried frames a tap reads are copies of the next chunk's first frame, and the state left is that of one call if and only if the same holds of the frames carried past the last chunk |
| Conv.DenseSeams | apps/tts/crates/engine/src/modules/conv.rs:110-120 | without dilation that is: at each seam the last kernel - stride frames all equal the next chunk's first |
| Conv.StepUnused | apps/tts/crates/engine/src/modules/conv.rs:114-124 | without replication the step makes no difference |
| Conv.StepZeroShows | apps/tts/crates/engine/src/tts_model.rs:640 | a kernel that takes the difference of two frames and a signal that rises at its seam: given step 0 the second call misses the rise |
| Conv.StreamingConvTranspose1d.Forward | apps/tts/crates/engine/src/modules/conv.rs:219-267 | with a kernel that covers its stride, the samples no later frame can touch, bias once, and the sums still to be added to; a shorter kernel carries nothing |
| Conv.ConvTrSplit | apps/tts/crates/engine/src/modules/conv.rs:240-264 | one call on a and one on b is one call on both, also when a tail spans several calls |
| Conv.ConvTrIsChunkIndependent | apps/tts/crates/engine/src/modules/conv.rs:219-267 | for every cutting the outputs join to the whole transposed convolution without its last kernel - stride samples |
| Conv.SeamsFitIff | apps/tts/crates/engine/src/modules/conv.rs:228 | cutting keeps the number of samples if and only if the kernel covers the stride |
| Conv.AccConcat | apps/tts/crates/engine/src/modules/conv.rs:238 | what a signal adds to a sample is what its two halves add, the second one shifted |
| RingAttention.RingChunks | apps/tts/crates/engine/src/modules/attention.rs:13-33 | the one or two slices join to the ring in chronological order |
| RingAttention.WriteAround | apps/tts/crates/engine/src/modules/attention.rs:259-275 | the new tokens stand from the start slot on around the end, every other slot unchanged |
| RingAttention.RingAdvances | apps/tts/crates/engine/src/modules/attention.rs:248-279 | after eviction and wrap-around writing the ring in order is the end of the history |
| RingAttention.StoreIn | apps/tts/crates/engine/src/modules/attention.rs:253-276 | the in-place write does that to the buffer |
| RingAttention.OnlyTheEnd | apps/tts/crates/engine/src/modules/attention.rs:248-252 | a run at least as long as the window leaves only its own end |
| RingAttention.RingKv.Store | apps/tts/crates/engine/src/modules/attention.rs:247-279 | for any length of input the ring holds the last window tokens of old and new |
| RingAttention.RingKv.Forward | apps/tts/crates/engine/src/modules/attention.rs:119-298 | from any stored buffers and cursor: answers every new token over its window of what is held and what is new and keeps the last window tokens |
| RingAttention.RingKv.Load | apps/tts/crates/engine/src/modules/attention.rs:177-196 | the cursor is brought within the buffers and buffers of another capacity to the window |
| RingAttention.ResizeKeepsIff | apps/tts/crates/engine/src/modules/attention.rs:183-196 | a ring of another capacity still holds the end of its history, for every content, if and only if it is empty or its oldest token that fits is in the first column |
| RingAttention.AttendPieces | apps/tts/crates/engine/src/modules/attention.rs:199-224 | all heads over the ring slices and the new tokens give each token its window |
| RingAttention.RingSplit | apps/tts/crates/engine/src/modules/attention.rs:182-279 | one call on a and one on b is one call on both: what was evicted is never asked for |
| RingAttention.RingIsWindow | apps/tts/crates/engine/src/modules/attention.rs:182-279 | for every cutting, the query at position p is answered over exactly the tokens in (p - ctx, p] of all ever seen, and the ring holds the last ctx of them |
| Decoder.RunSplit | apps/tts/crates/engine/src/models/seanet.rs:82-88 | every kind of layer, residual blocks and the windowed transformer included, picks up at a later call where the first one stopped |
| Decoder.RunAllSplit | apps/tts/crates/engine/src/models/seanet.rs:396-402 | that law is closed under putting layers one after another |
| Decoder.BlocksSplit | apps/tts/crates/engine/src/models/transformer.rs:169-186 | and under stacking transformer layers at one shared position |
| Decoder.ChunksAreOneCall | apps/tts/crates/engine/src/models/mimi.rs:147-161 | decoding in any number of calls joins to decoding in one, samples and states |
| Decoder.Forward | apps/tts/crates/engine/src/models/seanet.rs:396-402 | the loop over layers, each updating its entry of the model state, is the composition |
| Decoder.RunAllConcat | apps/tts/crates/engine/src/models/mimi.rs:153-160 | the three phases of decoding are one list of layers |
| Decoder.Mimi.DecodeFromLatent | apps/tts/crates/engine/src/models/mimi.rs:147-161 | upsampling, transformer and decoder update the whole model state as that one list |
| Decoder.FramesAreOneDecode | apps/tts/crates/engine/src/batch.rs:176-179 | the frames a reading yields, joined, are one decoding of all its latents |
| Reading.Hear | apps/tts/crates/server/src/engine.rs:325-425 | the frame-handling code, one assignment at a time, is the transition the lemmas below are about |
| Reading.Flush | apps/tts/crates/server/src/engine.rs:367-375 | held-back frames go out in order until a send fails, and how many that is |
| Reading.Delivery | apps/tts/crates/server/src/engine.rs:325-425 | whatever the frame, the listener keeps every finished segment once and in order plus the start of one attempt; a restart forgets an attempt of which nothing was sent; a finished segment adds exactly that attempt and one end mark |
| Reading.NoRestartOnceHeard | apps/tts/crates/server/src/engine.rs:327-329 | once a frame of a segment has been sent the segment is not read again |
| Reading.PotentialFalls | apps/tts/crates/server/src/engine.rs:325-425 | every frame, restart and hand-over included, lowers attempts left x 15 + frames left + later segments by at least one |
| Reading.FollowDelivers | apps/tts/crates/server/src/engine.rs:325-425 | for every sequence of frames: a listener whose reading is over has one attempt at each segment, every frame of it in order, and its end mark; one that left has a beginning of that |
| Reading.FollowUnbroken | apps/tts/crates/server/src/engine.rs:325-352 | each attempt a listener gets is an unbroken stretch of the frames that came: no segment is put together from two |
| Reading.ReadingIsBounded | apps/tts/crates/server/src/engine.rs:61-63 | for every sequence of frames, loud or silent, a reading not over after n of them has n below three times fifteen plus the limit, summed over its segments |
| Scheduler.Engine.HandleFrame | apps/tts/crates/server/src/engine.rs:313-426 | one frame updates the batch, the map of readings and the listener as specified, in every branch |
| Scheduler.Engine.Tick | apps/tts/crates/server/src/engine.rs:278-426 | a step and all its frames in order |
| Scheduler.Engine.Start | apps/tts/crates/server/src/engine.rs:439-453 | a job starts with its first segment, or is dropped when it has none or it cannot be prompted |
| Scheduler.Engine.StepFailed | apps/tts/crates/server/src/engine.rs:281-285 | a failed step forgets every reading and nothing else |
| Desk.ReadsFrame | apps/tts/crates/server/src/engine.rs:329-425 | what was heard and what is still to come stay the draw of the reading's own stream, through keeping, restarting and handing over; a finished reading has all its segments, one that stops at a segment that cannot be prompted all those before it |
| Desk.FrameEntitled | apps/tts/crates/server/src/engine.rs:368-374 | whatever is sent with a frame, the listener has a beginning of a script of its own: for each segment that can be prompted, in order, the whole draw of one stream given so far, later streams for later segments, and nothing from a segment that cannot be prompted on |
| Desk.EntitledWhenFixed | apps/tts/crates/server/src/engine.rs:325-425 | when every stream reads a text alike, what a listener has is a beginning of the one script its text decides, which ends before the first segment that cannot be prompted |
| Desk.WholeIffPrompts | apps/tts/crates/server/src/engine.rs:418-423 | a listener with all there is to speak has its whole text if and only if every segment can be prompted |
| Desk.HandledKeeps | apps/tts/crates/server/src/engine.rs:313-426 | handling a frame keeps every reading faithful and every listener on a beginning of such a script, also on a bad frame, a restart or a departure |
| Desk.HandledLockstep | apps/tts/crates/server/src/engine.rs:314-393 | no stream of the batch is left without its reading unless a frame cannot be read |
| Desk.Run | apps/tts/crates/server/src/engine.rs:202-437 | after every run of starts, steps and failures, every reading is faithful and every listener has a beginning of such a script, whatever the frames were |
| Desk.SmoothRunLockstep | apps/tts/crates/server/src/engine.rs:202-437 | as long as nothing breaks down, the streams of the batch are exactly those being read |
| Service.RunNearer | apps/tts/crates/server/src/engine.rs:313-426 | over a whole run every step brings every reading one frame nearer its end, through all its restarts and streams |
| Service.ReadingEnds | apps/tts/crates/server/src/engine.rs:61-63 | a reading is over within three times fifteen plus its limit, summed over its segments, whoever else is read to |
| Service.HandledServes | apps/tts/crates/server/src/engine.rs:382-425 | after a frame, bad or not, every listener is still being read to, or has every segment up to the first that cannot be prompted, or all it stayed for, but the one whose own frame was bad |
| Service.RunServes | apps/tts/crates/server/src/engine.rs:202-437 | the same over a whole run, for every listener that no failed step and no bad frame of its own befell while it was read to |
| Service.RunLoses | apps/tts/crates/server/src/engine.rs:281-323 | a listener that one befell is not read to again, gets nothing more, and never has all there was to speak |
| Service.ListenerServed | apps/tts/crates/server/src/engine.rs:404-425 | within the bound, whatever happened before it came and to others since: a listener that nothing befell has exactly one attempt at every segment up to the first that cannot be prompted, or all it stayed for; one that stays has that if and only if nothing befell it |
| Service.WholeTextServed | apps/tts/crates/server/src/engine.rs:404-425 | so a listener that stays has its whole text, in that bound, if and only if every segment can be prompted and no failed step and no bad frame of its own befell it |
| Service.CutShort | apps/tts/crates/server/src/engine.rs:418-423 | a text of three segments whose second cannot be prompted: its listener has the first and its end mark, and nothing reads the third |
| Service.RunOwed | apps/tts/crates/server/src/engine.rs:278-285 | every step takes a frame from every stream of the batch, read or forgotten |
| Listeners.OwedStep | apps/tts/crates/engine/src/batch.rs:147-209 | a step pays each stream one frame of what its text read alone, with its noise, owes, flagged when it is the last |
| Listeners.HandledSim | apps/tts/crates/server/src/engine.rs:313-426 | handling a frame of the real batch is handling what the desk is owed |
| Listeners.CalledSim | apps/tts/crates/server/src/engine.rs:254-426 | every call to the scheduler is an event at the desk |
| Listeners.EveryListener | apps/tts/crates/server/src/engine.rs:202-437 | in every run of the scheduler over the batcher, at any temperature, with any failures and departures, what a listener has is a beginning of its own script: each segment up to the first that cannot be prompted as one stream of the run reads it alone, later streams for later segments; at temperature zero the one script its text decides |
| Listeners.BatchMatchesReadings | apps/tts/crates/server/src/engine.rs:314-393 | in every run each reading has its stream in the batch; while nothing breaks down the batch has no other |
| Listeners.StreamsLeave | apps/tts/crates/server/src/engine.rs:278-285 | in every run a stream is gone after the steps its limit still allows, also one whose reading was forgotten by a bad frame or a failed step |
| Listeners.ServedInTime | apps/tts/crates/server/src/engine.rs:61-63 | a listener that arrives at any moment, after any failures, and stays has within that bound of steps one whole attempt at each segment up to the first that cannot be prompted, at temperature zero its one script, if and only if no step failed while it was read to and no frame of its own was bad; its whole text if and only if every segment can be prompted, too |
| Listeners.Drive | apps/tts/crates/server/src/engine.rs:202-437 | the scheduler's methods over the batcher, driven through any list of calls, tell listeners what that run says |
| Responses.ScriptParts | apps/tts/crates/server/src/main.rs:289-305 | an encoder given a script gets the samples of each segment, and nothing after the last end mark |
| Responses.ScriptDecodes | apps/tts/crates/server/src/main.rs:289-350 | a client of the framed response to a script decodes the encoding of each segment that has one, if and only if each fits its prefix |
| Responses.Respond | apps/tts/crates/server/src/main.rs:225-242 | there is no response if and only if no frame came; sent whole it is that of everything from the first frame on, cut short it is a beginning of it |
| Responses.Answer | apps/tts/crates/server/src/main.rs:206-350 | the real scheduler and the real response together, for any calls: the client of a listener that stays and that nothing befell decodes every segment up to the first that cannot be prompted, each the encoding of what one stream of the run read |
| Admission.EventKeeps | apps/tts/crates/server/src/engine.rs:132-173 | every step of a submitter or of the engine keeps slot counts, queue order and emptiness, and the loop's own counts |
| Admission.EventBalances | apps/tts/crates/server/src/engine.rs:35-43 | every way a job can end or move keeps its class's counter equal to the jobs of the class in the system |
| Admission.EventWithinSlots | apps/tts/crates/server/src/engine.rs:143-145 | no class ever has more slots taken than it has |
| Admission.FullMeansEmpty | apps/tts/crates/server/src/engine.rs:254-269 | a class with no room left to start has nobody in its queue |
| Admission.EventOrders | apps/tts/crates/server/src/engine.rs:234-262 | jobs of a class are begun in the order they were sent |
| Admission.SlotsConserved | apps/tts/crates/server/src/engine.rs:132-173 | for every interleaving the counter is the jobs in channel, queue, hand and batch, within the slots, and when the engine steps both queues are empty |
| Admission.BegunByStep | apps/tts/crates/server/src/engine.rs:216-269 | whatever had been sent when a turn of the loop begins has been taken from its queue, in the order sent, when that turn steps |
| Admission.RefusedOnlyWhenFull | apps/tts/crates/server/src/engine.rs:143-156 | a submission is refused only when every slot of its class was held as it read the counter |
| Admission.OneWinner | apps/tts/crates/server/src/engine.rs:143-145 | one reading of the counter lets at most one submitter in |
| Admission.QueuesFit | apps/tts/crates/server/src/engine.rs:247-253 | what is running and what is queued of a class never exceed its slots |
| Admission.Admit | apps/tts/crates/server/src/engine.rs:254-269 | both admission loops start every queued job that can start, live before background, and leave both queues empty |
| Encode.FirstLoudMeans | apps/tts/crates/server/src/encode.rs:121-127 | the window found is loud and no window before it is |
| Encode.NeverLoudMeans | apps/tts/crates/server/src/encode.rs:138-142 | no window is found only when no complete one is loud |
| Encode.LeadTrimmer.Push | apps/tts/crates/server/src/encode.rs:116-136 | what has been handed back is the trim of all that was pushed, or nothing yet while no complete window is loud |
| Encode.LeadTrimmer.Finish | apps/tts/crates/server/src/encode.rs:138-142 | with what is handed back here it is the whole trim |
| Encode.TrimLeadingSilence | apps/tts/crates/server/src/encode.rs:145-150 | the one-shot trim is the input from keep samples before the first loud window, or all of it |
| Encode.TrimFrames | apps/tts/crates/server/src/encode.rs:213-225 | for every cutting into frames, pushing them and finishing gives that same trim |
| Encode.PcmRoundTrip | apps/tts/crates/server/src/encode.rs:58 | 16-bit samples come back from their little-endian bytes |
| Encode.Chunked.Create | apps/tts/crates/server/src/encode.rs:161-172 | none for wav, an error exactly when the mp3 encoder cannot start, and a fresh encoder otherwise |
| Encode.Chunked.Push | apps/tts/crates/server/src/encode.rs:174-177 | the bytes so far are the encoding of what the trimmer has let through |
| Encode.Chunked.Finish | apps/tts/crates/server/src/encode.rs:179-186 | all the bytes are one encoding of the whole trimmed segment |
| Streaming.FramingRoundTrip | apps/tts/crates/server/src/main.rs:255-260 | taking the length-prefixed stream apart gives exactly the pieces framed if and only if each is shorter than 2^32 bytes |
| Streaming.Stream | apps/tts/crates/server/src/main.rs:267-350 | a whole response is one entry per non-empty segment encoding in order, an unfinished last segment included, or unframed the bytes of all of them; one cut by an error or a departure is whole entries of finished segments, or unframed their bytes and then what the encoder had handed back of the next |
| Streaming.BegunBegins | apps/tts/crates/server/src/main.rs:308-328 | what was handed back of a segment begins the encoding of it however it goes on |
| Streaming.EncodePiece | apps/tts/crates/server/src/main.rs:289-306 | an end mark closes the segment's encoding with exactly its trimmed samples and starts a fresh encoder |
| Streaming.Deliver | apps/tts/crates/server/src/main.rs:314-328 | framed bytes are gathered until the end mark, others go out as they are, and nothing empty is sent |
| Mp3Frames.FrameSize | apps/core/internal/audio/mp3frames.go:116-133 | every accepted header has a frame of 24 to 1441 bytes |
| Mp3Frames.UnitSizes | apps/core/internal/audio/mp3frames.go:78-102 | every unit has a positive size within its bytes, and one still incomplete is shorter than an ID3 tag can be |
| Mp3Frames.UnitStays | apps/core/internal/audio/mp3frames.go:78-102 | a unit or a bad header stays what it is whatever bytes follow |
| Mp3Frames.ScanUnits | apps/core/internal/audio/mp3frames.go:50-59 | scanning stops exactly at the first incomplete unit or bad header, over whole units |
| Mp3Frames.JudgeAfter | apps/core/internal/audio/mp3frames.go:50-59 | whole units in front do not change what follows |
| Mp3Frames.PieceFits | apps/core/internal/audio/mp3frames.go:32-33 | no piece can outgrow its 32-bit prefix |
| Mp3Frames.TargetDoubles | apps/core/internal/audio/mp3frames.go:14-17 | the target of a piece starts at 48 KiB, doubles and stays at 256 KiB |
| Mp3Frames.FramesFromMp3 | apps/core/internal/audio/mp3frames.go:22-76 | for every slicing of the reads: on success the payloads join to the stream, each is whole units within its prefix, all but the last reach their target; it succeeds if and only if the stream is whole units and read to its end, and each error says what the stream is |
| Mp3Frames.RelayRoundTrip | apps/core/internal/audio/mp3frames.go:19-21 | a client of the relay gets back the pieces it was cut into |
| Pause.CleanHasNoMarker | apps/tts/crates/engine/src/pause.rs:114-117 | stripped text has no marker anywhere, not even one put together by removing others |
| Pause.StripIsIdempotent | apps/tts/crates/engine/src/pause.rs:114-117 | stripping twice is stripping once |
| Pause.NextMarkerIsFirst | apps/tts/crates/engine/src/pause.rs:34-37 | no marker starts before the next one found |
| Pause.ExplicitPauses | apps/tts/crates/engine/src/pause.rs:148-171 | the loop with its running offset gives each lasting marker its adjusted position |
| Pause.ExplicitNames | apps/tts/crates/engine/src/pause.rs:148-171 | the explicit pauses of any text are its markers that last, in order, each with its own length at the space of the stripped text that stands for it |
| Pause.NaturalPauses | apps/tts/crates/engine/src/pause.rs:76-112 | ellipses and commas not inside numbers, in order |
| Pause.PausesChain | apps/tts/crates/engine/src/pause.rs:129-180 | all pauses, explicit and natural, are in order in the clean text and each ends before the next starts, over its own kind of bytes |
| Pause.SortedIs | apps/tts/crates/engine/src/pause.rs:174 | sorting by position keeps the pauses and keeps them apart |
| Pause.ParseTextWithPauses | apps/tts/crates/engine/src/pause.rs:129-180 | the clean text and all its pauses |
| Pause.SegmentsPartition | apps/tts/crates/engine/src/tts_model.rs:1190-1217 | text segments and pause spans make up the clean text; only blank stretches are left out |
| Pause.SegmentText | apps/tts/crates/engine/src/tts_model.rs:1190-1217 | the interleaving loop takes no slice out of order and yields those segments |
| SentencePiece.ReadVarintLoop | apps/tts/crates/engine/src/conditioners/text.rs:220-241 | the loop reads the varint the specification reads, errors included |
| SentencePiece.VarintRoundTrip | apps/tts/crates/engine/src/conditioners/text.rs:220-241 | reading inverts writing for every 64-bit value wherever it stands |
| SentencePiece.ReadVarint | apps/tts/crates/engine/src/conditioners/text.rs:220-241 | a successful read moves on by at least a byte, within the data, to a 64-bit value |
| SentencePiece.ParseVocab | apps/tts/crates/engine/src/conditioners/text.rs:84-217 | the two nested loops, every field kind and error, are the specification reader |
| SentencePiece.ParsePrintRoundTrip | apps/tts/crates/engine/src/conditioners/text.rs:332-356 | parsing inverts printing for every list of pieces: those with a text in order with their scores, the last UNKNOWN one's index, and a refusal when none has a text |
| SentencePiece.AllPiecesKept | apps/tts/crates/engine/src/conditioners/text.rs:183-185 | with no empty piece every piece is at its own index and the unknown id is the last UNKNOWN one's, zero without one |
| SentencePiece.UnkInRangeIff | apps/tts/crates/engine/src/conditioners/text.rs:154-156 | the unknown id is inside the vocabulary if and only if the last UNKNOWN piece or one after it has a text |
| SentencePiece.UnkOutOfRange | apps/tts/crates/engine/src/conditioners/text.rs:154-156 | a printed model the parser accepts with an unknown id past its vocabulary |
| SentencePiece.NextFieldAdvancesIff | apps/tts/crates/engine/src/conditioners/text.rs:185-205 | where positions wrap at 64 bits the reader moves on from a field unless its length takes it around to the field's start or before it, and only then it does not |
| SentencePiece.NextFieldStays | apps/tts/crates/engine/src/conditioners/text.rs:193-197 | a field that takes the reader back to the start of the data |
| Outbox.BackoffGrows | apps/core/internal/costs/outbox.go:87-90 | the delay never shrinks, is at least five seconds and ten minutes from the eighth attempt on |
| Outbox.ClaimRows | apps/core/internal/costs/outbox.go:42-68 | a claim takes the first due rows nobody holds, a hundred at most |
| Outbox.PickedMeans | apps/core/internal/costs/outbox.go:47-53 | what is claimed is due, unlocked and in order |
| Outbox.PickedFirst | apps/core/internal/costs/outbox.go:47-53 | a due row is passed over only for a full batch of earlier ones |
| Outbox.EventKeeps | apps/core/internal/costs/sender.go:108-157 | recording, claiming, posting whole or singly, committing and crashing keep every invariant of table, replicas and ledger |
| Outbox.ChargedRows | apps/core/internal/costs/outbox.go:40-41 | a request leaves each recorded line charged exactly once and as it was recorded |
| Outbox.OutboxSafe | apps/core/internal/costs/outbox.go:22-85 | in every run with any crashes and lost answers: sent rows are charged, each key at most once, parked rows were refused alone, no two replicas hold one row |
| Outbox.NothingLost | apps/core/internal/costs/outbox.go:22-32 | rows keep their lines for good, and once sent or parked never change |
| Outbox.RecordedForGood | apps/core/internal/costs/outbox.go:22-32 | a recorded key has its row after every later run |
| Outbox.PostEach | apps/core/internal/costs/sender.go:119-125 | a refused batch is posted line by line, each row settled by the status of its own post |
| Outbox.RunOnce | apps/core/internal/costs/sender.go:62-130 | a pass is a run of the model's events that settles exactly the claimed rows, each by the status its post came back with, and touches no other |

## Left out

- Rounding: reals stand for f32, f16 and int8; the stacked cache's f16 and the reference path's f32 agree here and only nearly in the code.
- Sampling noise: it is whatever it is for each stream and frame; that one generator draws it for all of them in the order of calls, so that a second run draws other noise, is not modelled.
- The network itself: projections, rotary embedding, normalisation, feed-forward and flow matching are uninterpreted row-wise functions, and prompting a text in a voice is a function to the caches it leaves, so a prompt that fails fails every time.
- Tensor layout, devices, contiguity and the errors of single tensor calls, except where a whole step or frame fails; a step that fails half-way through the layers is taken to leave the batch as it was.
- A window of no tokens (apps/tts/crates/engine/src/modules/attention.rs:253): attention over no keys divides nothing by nothing.
- How far the stacked cache grows: removing a row never lowers the shared column, so no bound by live rows holds.
- Voice prompts through the encoder: every chunk is passed step 0, so chunk independence does not hold of it; `Conv.StepZeroIff` says when it does for one convolution, the encoder's layers together are not modelled.
- Sentence and token splitting (apps/tts/crates/engine/src/tts_model.rs:763-768): the half split can leave an empty or oversized chunk, so there is no hard token bound to prove.
- Listeners.ServedInTime: does not bound the wait before a slot is granted or the wall-clock time of a step, because neither is bounded in the code.
- Admission.SlotsConserved: does not model the metrics counters or the wrap-around of the 64-bit job id, and orders atomic operations on one counter one after another.
- Encode.LeadTrimmer.Push: does not model sample rates below 100 Hz, because the code divides the input into windows of zero samples and panics; loudness is compared squared, without the square root's rounding.
- Streaming.Stream: takes the mp3 encoder as any that streams (`Encode.Streams`); where an encoder may refuse what follows, `Streaming.BegunBegins` speaks of the case that it does not.
- Conv.StreamingConvTranspose1d.Forward: does not model an empty input, which the library's transposed convolution does not take; the decoder is likewise given at least one latent.
- Responses.Answer: does not model that a client which stops taking chunks makes its listener leave; how far such a response got is `Responses.Respond`, what the listener then has is `Listeners.EveryListener`.
- Wav headers: one fixed layout written once; only that wav is not encoded frame by frame is modelled.
- Mp3Frames.FramesFromMp3: does not model a source that never ends; the bytes written before a failing write are not described.
- Pause.ExplicitPauses: does not model digits outside ASCII, which the pattern also accepts and which make a marker of no duration, nor the rounding of decimal durations.
- SentencePiece.ParseVocab: does not model what the parser returns once a position has wrapped past 2^64 (`SentencePiece.NextFieldAdvancesIff` says when it moves on), nor the replacement of invalid UTF-8; such a position, and a slice out of range, which is a panic in the code, are errors here.
- Outbox.RunOnce: does not model JSON encoding errors, client names or the periodic client sync; database errors are crashes.
- HTTP handlers, authentication, configuration, object storage, message queues, logging, metrics and the web application: input and output around what is modelled.

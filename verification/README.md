# A verified model of the perf and Python trace merger

The tool reads a perf event stream and any number of Python trace files, merges
them by time, turns raw kernel and probe events into spans with per-thread state
machines, and writes Perfetto trace files, optionally one per time chunk. This
project models that pipeline in Dafny 4.11, stage by stage, and proves what each
stage promises and what the stages promise together. `dafny verify
dfyconfig.toml` checks all of it.

| module | models |
|---|---|
| `Seqs`, `Events`, `Output` | shared vocabulary: sequences, the events read, the calls an output writer receives |
| `BinaryHeap` | the array heap behind `std::priority_queue`, for a comparator that need not be an order |
| `StreamingSort` | the bounded reorder buffer and the in-memory sort it replaces |
| `KWayMerge` | the merge of sorted Python traces by a heap of source numbers, keyed through the sources' cursors |
| `ThreadMachines` | the scheduler, GIL and GPU state machines of one thread, as functions of a history of firings |
| `SchedTimeline`, `BracketTracks`, `DuplicateProbes` | what those machines keep over every history |
| `MergeEngine` | the engine: its state maps, each arm of its event switch, the two-way merge loops, the flush |
| `RawEvents` | what a stream of perf and Python events draws, said of the events themselves |
| `WholeRuns` | complete engine runs: sources, threads, begin and end tracks |
| `RunTimeline` | the scheduler tracks of complete runs, from the reorder buffer to the flush |
| `RepeatedFirings` | probes that fire twice, seen at the event stream |
| `Chunks`, `CarriedSpans`, `ChunkingWriter` | what a chunked log must be, said without any pruning; which calls it carries over, said of calls and files alone; the writer that prunes |
| `ProtoEncoder` | the hand-written Protocol Buffers encoder, and a decoder written from the Protocol Buffers Encoding specification |
| `TracePackets`, `PerfettoWriter` | trace packets, a reader of them, and the writer that interns strings and defers descriptors |
| `TrackNames`, `WireExamples` | names, ranks and owners of tracks, said of log entries and uuid numbers; packets of each kind to the byte |
| `PacketWire`, `TraceFiles`, `EngineFiles` | packets as bytes; chunks as files; an engine run as a file |

Classes stand for the source's classes and update their fields in place. A ghost
history (what was read, which acts were performed, which calls were made) lets
each method say what it adds, and the theorems are about those histories.

## Findings

- **The reorder buffer is right exactly when it can be.** With room for `c`
  events its output is sorted if and only if no event overtakes more than `c`
  earlier ones (`StreamingSort.Drain`). The comment at src/streaming_sort.h:56-58
  asks for a distance less than the heap size; a distance of `c` is still fine
  (`ShortInversionsSuffice`), and `c + 1` is not (`LongerInversionFails`).
- **The maximum timestamp is taken too early.** src/main.cpp:243-245 reads
  `max_timestamp_ns()` as soon as the buffer is built, when it covers only the first
  `c + 1` events (`Drain`, `MaximumTakenEarlyIsStale`); the minimum is already final
  (`MinimumIsFinal`). With that flush a thread's time is conserved up to the flush if
  and only if its last state change is not after it, and up to the end of the stream
  if and only if the flush or that change is at the end (`ReorderedRunConservesTime`).
  For every `c`, `EarlyFlushLosesTime` gives a stream in order on which the streamed
  run draws 4 of a thread's 8 nanoseconds.
- **The k-way comparator is an order if and only if no three events clash**
  (`FullKeyIsAnOrder`): at one time, two events of known depth and one of unknown depth
  whose duration lies between theirs while the key orders the two the other way
  (`MixedDepthsAreNotOrdered`). Where the three durations differ, nothing that holds
  such events can be sorted by the full key (`ClashCannotBeSorted`), so there are
  sorted files no interleaving of which is (`MixedDepthsCannotBeMerged`). The merged
  stream is still sorted by time whenever the files are, because the heap is a heap by
  time as well; the full key is kept when no events clash (`MergeAll`), whether or not
  known and unknown depths meet.
- **GPU calls are shown above the call stacks.** project-details.md:141-146 lists the GPU
  track as the last of a thread; the ranks written are -100, -50, -25 and 0 for
  scheduling, GIL, GPU and stacks (`TracksAreShown`).
- **The GIL track can be read as nested spans if and only if no drop arrives while
  the GIL is held and being taken again** (`GilTrackIsLifo`,
  `RepeatedTakeBreaksGilTrack`), and shows at most one span at a time if and only if
  no take arrives while it is held (`OneGilSpanAtATime`). The GPU track nests if and
  only if the calls do (`GpuTrackIsLifo`, `OverlapBreaksGpuTrack`).
- **The metric samples of a skipped chunk are lost.** src/chunking_writer.h:139-144
  sets out to keep every sample, but a chunk that no call reaches is never opened. A
  sample of the planned range is written if and only if the run reaches its chunk at
  some point, and the samples were set no later than that (`SampleIsWritten`);
  `SkippedChunkLosesSamples` is a run of one call that loses one. The number of chunks
  reported, src/chunking_writer.h:138, is the number of files if and only if no chunk
  was skipped (`ReportCountsFiles`).
- **Scheduler spans do not tile when a switch re-asserts a state**
  (`ReassertedStateLeavesGap`). The clock restarts without a span; the time lost is
  exactly `Dropped`, and the spans tile the thread's life if and only if it is zero
  (`TimeIsConserved`).
- **On-cpu and off-cpu spans alternate if and only if no span is drawn after an odd
  number of empty periods since the one before it** (`AlternatesIffNoneRepeats`,
  `RunAlternatesIffNoneRepeats`). An empty period is two scheduler firings at one time;
  `SharedTimeBreaksAlternation` shows one.
- **Erasing repeated probe firings changes the calls of a run if and only if some
  repeat draws something** (`RepeatedFiringsLeaveNoTrace`, for any filters, bounds and
  start). Without time bounds and with one filter verdict per thread no repeat ever
  does (`UnboundedRepeatsAreSilent`). With bounds, from the start of a sorted run,
  the ones that do are the takes and API entries that are the first firing of their
  probe to get through and repeat one that did not (`ErasureFromStart`,
  `TimeBoundsHideTheFirst`); a drop or return in that place loses nothing
  (`HiddenDropIsNoLoss`). Two process ids on one thread can do the same without
  bounds (`TwoProcessesHideTheFirst`), since GIL events are filtered by their own
  process id.

## Model

| member | source | states |
|---|---|---|
| BinaryHeap.PushHeap | src/streaming_sort.h:97-97 | the new contents are the old ones and `x`; a heap by any weaker order that the comparator refines stays one |
| BinaryHeap.PopHeap | src/streaming_sort.h:146-147 | takes the first element, keeps the rest, and leaves a heap by every order the comparator refines |
| BinaryHeap.TopLeavesFirst | src/streaming_sort.h:146-146 | no element of a heap belongs before its top |
| StreamingSort.AfterIsAnOrder | src/streaming_sort.h:23-32 | the event comparator is a strict weak order, so heaps may be built by it |
| StreamingSort.SortedMeans | src/streaming_sort.h:23-32 | sorted by the comparator is: times never fall, and among equal times no switch comes before another kind |
| StreamingSort.BoundedMeans | src/streaming_sort.h:49-61 | how many events one overtakes is how many of those before it are later, or are switches at its time when it is none |
| StreamingSort.OvertakenPermutation | src/streaming_sort.h:49-61 | how many events one overtakes depends on which were read before it, not on their order |
| StreamingSort.ReadingBreaksOrderIffTooLate | src/streaming_sort.h:127-149 | with output sorted so far, an event read belongs before the last output if and only if it overtakes more events than the heap holds |
| StreamingSort.WindowReadPop | src/streaming_sort.h:129-149 | reading one event into a full buffer and popping keeps: nothing lost, nothing held belongs before the output, output sorted iff nothing came too late |
| StreamingSort.WindowPop | src/streaming_sort.h:141-149 | the same for a pop after the stream has ended |
| StreamingSort.ReorderBufferIterator.constructor | src/streaming_sort.h:66-76 | after construction the buffer has read `capacity + 1` events, or all, and stands on the first output |
| StreamingSort.ReorderBufferIterator.TrackMetadata | src/streaming_sort.h:105-111 | minimum, maximum, count and fork list are brought up to date |
| StreamingSort.ReorderBufferIterator.FillHeap | src/streaming_sort.h:115-125 | the heap is filled to capacity or with the whole stream |
| StreamingSort.ReorderBufferIterator.PopNext | src/streaming_sort.h:129-149 | one event more is read if there is one; the output grows by the new current event and the window invariant is kept |
| StreamingSort.ReorderBufferIterator.Advance | src/streaming_sort.h:82-82 | as PopNext; the iterator ends only when everything has been output |
| StreamingSort.ReorderBufferIterator.MetadataIsReadAhead | src/main.cpp:243-245 | right after construction minimum and maximum are those of the first `capacity + 1` events |
| StreamingSort.ReorderBufferIterator.Finished | src/streaming_sort.h:141-144 | when there is no output left, the output is a permutation of the stream, sorted if and only if no event overtakes more than `capacity` earlier ones |
| StreamingSort.ReorderBufferIterator.MinimumIsFinal | src/streaming_sort.h:85-85 | under that bound the minimum read so far is, from construction on, that of the whole stream |
| StreamingSort.Drain | src/streaming_sort.h:62-150 | for every stream and capacity the output is a permutation of the input; it is in order of time, switches last among equal times, if and only if no event comes after more than `capacity` that have to leave after it; of the times read right after construction the last covers the first `capacity + 1` events only, and under that bound the first is the stream's |
| StreamingSort.SortedKeysAgree | src/main.cpp:202-210 | sorted permutations of one stream have the same keys in the same order |
| StreamingSort.OrdersAgree | src/main.cpp:202-210 | so buffer and in-memory sort agree one by one on times and on which events are switches |
| StreamingSort.ShortInversionsSuffice | src/streaming_sort.h:56-58 | inversions no further apart than `c` are enough for a buffer of `c` |
| StreamingSort.SortedNeedsNoBuffer | src/streaming_sort.h:56-58 | a stream in order needs no buffer at all |
| StreamingSort.LongerInversionFails | src/streaming_sort.h:56-58 | for every `c` a stream with an inversion at distance `c + 1` defeats it |
| StreamingSort.EarlyMinimum | src/main.cpp:244-244 | the first `c + 1` events hold the minimum when none comes too late |
| StreamingSort.TimesMean | src/streaming_sort.h:105-108 | minimum and maximum are times of the stream, and bound all of them |
| StreamingSort.MaximumTakenEarlyIsStale | src/main.cpp:245-245 | for every `c`, on some sorted stream the maximum of the first `c + 1` events is not the maximum |
| StreamingSort.MaxTsReadAhead | src/main.cpp:245-245 | that maximum never exceeds the stream's |
| KWayMerge.FullKeyIsAnOrder | src/kway_viz_merge.h:82-91 | the comparator is a strict weak order on a set of events if and only if no three of them clash: at one time, an unknown depth whose duration lies between those of two known ones that the key orders the other way |
| KWayMerge.MixedDepthsCanBeOrdered | src/kway_viz_merge.h:86-90 | any two events are ordered soundly, known depth or not |
| KWayMerge.MixedDepthsAreNotOrdered | src/kway_viz_merge.h:86-90 | three events at one time with mixed depths on which it is no order |
| KWayMerge.HeadsAreOrdered | src/kway_viz_merge.h:82-91 | the comparator on source numbers refines each order by which the files can be merged |
| KWayMerge.KeysFrozen | src/kway_viz_merge.h:46-54 | moving the cursor of a source that is not in the heap changes no key of the heap |
| KWayMerge.TopIsFirst | src/kway_viz_merge.h:57-58 | the head of the top source belongs before everything left in any file |
| KWayMerge.OrderAfterTaking | src/kway_viz_merge.h:40-63 | appending it keeps the output ordered and before the rest |
| KWayMerge.KWayVizMerge.Initialize | src/kway_viz_merge.h:23-34 | after seeding, nothing is consumed and the current event is first among all heads |
| KWayMerge.KWayVizMerge.StepTop | src/kway_viz_merge.h:46-54 | popping, advancing and re-inserting keeps the merge invariant and leaves one event fewer |
| KWayMerge.KWayVizMerge.Advance | src/kway_viz_merge.h:40-63 | outputs the current event, keeps the invariant, and leaves one event fewer; past the end it does nothing |
| KWayMerge.NothingLeft | src/kway_viz_merge.h:60-62 | with the heap empty every file has been consumed to its end |
| KWayMerge.MergeAll | src/kway_viz_merge.h:15-99 | the output interleaves the files, each event once, each file in its own order; it is sorted by time if the files are, and by the full key if they are and no three events clash |
| KWayMerge.ClashCannotBeSorted | src/kway_viz_merge.h:82-91 | where the durations of a clash differ, no sequence that holds the three events is sorted by the full key |
| KWayMerge.ClashCannotBeMerged | src/kway_viz_merge.h:15-99 | so no interleaving of files that hold them is |
| KWayMerge.MixedDepthsCannotBeMerged | src/kway_viz_merge.h:82-91 | two files, each sorted by the full key, to which that happens |
| ThreadMachines.CallsAfterAppend | src/merge_engine.cpp:361-784 | the calls of two batches of firings are those of the first and then those of the second from where it left |
| ThreadMachines.ThreadProjection | src/merge_engine.cpp:361-784 | a thread's state and the calls on its tracks are those of a run on its own firings alone |
| SchedTimeline.StampIsAnAct | src/merge_engine.cpp:435-440 | the recorded instant of a thread is the time of one of its own firings |
| SchedTimeline.GapNeverWraps | src/merge_engine.cpp:705-706 | in a run sorted by time the unsigned gap is the true difference |
| SchedTimeline.Timeline | src/merge_engine.cpp:368-515 | at every point of a sorted run a thread's spans are positive, ordered, inside its life so far, and with the dropped time add up to it |
| SchedTimeline.TilesTotal | src/merge_engine.cpp:418-471 | spans that tile an interval add up to it |
| SchedTimeline.TimeIsConserved | src/merge_engine.cpp:786-817 | with the flush, spans and dropped time add up to last time minus first state; the spans are positive, ordered and disjoint, and tile that interval if and only if nothing was dropped |
| SchedTimeline.AccountedUntil | src/merge_engine.cpp:789-800 | whenever the flush comes, the spans are positive, ordered and disjoint, and with the dropped time add up to the life until the flush or the last change, whichever is later |
| SchedTimeline.ConservedIffFlushedLate | src/merge_engine.cpp:789-800 | conservation holds if and only if the flush time is not before the last state change |
| SchedTimeline.ReassertedStateLeavesGap | src/merge_engine.cpp:447-471 | a thread switched in twice loses the time between, and its spans do not tile its life |
| SchedTimeline.AlternatesIffNoneRepeats | src/merge_engine.cpp:418-471 | for every history and flush, on-cpu and off-cpu spans alternate if and only if no span is drawn after an odd number of empty periods since the one before it |
| SchedTimeline.SpansAlternate | src/merge_engine.cpp:418-471 | if the times of the scheduler firings on the thread strictly rise, the spans alternate, flush included |
| SchedTimeline.SharedTimeBreaksAlternation | src/merge_engine.cpp:418-471 | a thread switched out and in at one instant gets two on-cpu spans in a row |
| BracketTracks.AcquireToggles | src/merge_engine.cpp:533-569 | "GIL acquire" strictly alternates begin and end, open exactly while recorded in `gil_start_` |
| BracketTracks.ApiToggles | src/merge_engine.cpp:586-677 | each API's span strictly alternates begin and end, open exactly while recorded in `gpu_open_` |
| BracketTracks.GilEndsFollowBegins | src/merge_engine.cpp:533-584 | in every prefix ends never outnumber begins on a GIL track |
| BracketTracks.GpuBalance | src/merge_engine.cpp:586-677 | the same on GPU tracks, and the number open is the size of the record |
| BracketTracks.GilTrackIsLifo | src/merge_engine.cpp:533-584 | a GIL track reads as nested spans if and only if no drop arrives while the GIL is held and being taken again |
| BracketTracks.OneGilSpanAtATime | src/merge_engine.cpp:533-584 | it never has two spans open if and only if no take arrives while held; the open span is then the recorded one |
| BracketTracks.GpuTrackIsLifo | src/merge_engine.cpp:586-677 | a GPU track reads as nested spans if and only if the calls nest, repeats aside; its open spans are then the open calls in order |
| BracketTracks.RepeatedTakeBreaksGilTrack | src/merge_engine.cpp:571-584 | four firings that break the GIL track |
| BracketTracks.OverlapBreaksGpuTrack | src/merge_engine.cpp:669-676 | three firings that break the GPU track |
| DuplicateProbes.RepeatIsSilent | src/merge_engine.cpp:537-538 | a firing that repeats the last one in its slot changes no state and makes no call |
| DuplicateProbes.EraseIsInvisible | project-details.md:126-135 | from any reachable state, erasing the repeats of a history leaves its calls and every thread's state |
| MergeEngine.MergeEngine.SwitchOutThread | src/merge_engine.cpp:418-441 | performs exactly one switch-out step of the thread's machine, on its own state and the log |
| MergeEngine.MergeEngine.SwitchInThread | src/merge_engine.cpp:447-471 | the same for the thread coming in |
| MergeEngine.MergeEngine.WakeThread | src/merge_engine.cpp:487-513 | the same for a wakeup, with its marker |
| MergeEngine.MergeEngine.TickThread | src/merge_engine.cpp:695-731 | the same for a context-switch or runtime sample, with the 10 microsecond echo filter |
| MergeEngine.MergeEngine.ForkThread | src/merge_engine.cpp:522-530 | the same for a fork marker |
| MergeEngine.MergeEngine.TakeGilOn | src/merge_engine.cpp:537-545 | the same for a take |
| MergeEngine.MergeEngine.ReturnGilOn | src/merge_engine.cpp:552-568 | the same for the return of a take |
| MergeEngine.MergeEngine.DropGilOn | src/merge_engine.cpp:575-583 | the same for a drop |
| MergeEngine.MergeEngine.EnterApiOn | src/merge_engine.cpp:626-631 | the same for the entry of a GPU or NCCL call |
| MergeEngine.MergeEngine.LeaveApiOn | src/merge_engine.cpp:669-676 | the same for its return |
| MergeEngine.MergeEngine.EmitPerfEvent | src/merge_engine.cpp:361-784 | an event performs exactly the acts its kind, the options, the filters and the time bounds call for; what these draw is said by `RawEvents.EventDraws` |
| MergeEngine.MergeEngine.EmitSwitch | src/merge_engine.cpp:368-473 | a context switch performs the switch-out of one thread, then the switch-in of the other if it is known |
| MergeEngine.MergeEngine.FlushSchedState | src/merge_engine.cpp:786-817 | closes the open span of every thread with a state, each once, in some order |
| MergeEngine.MergeEngine.EmitVizEvent | src/merge_engine.cpp:866-887 | passes a Python event on if the filters let it |
| MergeEngine.MergeEngine.MergeVizStream | src/merge_engine.cpp:993-1042 | the calls made are the naming calls, those of the sorted merge with perf first on ties, and the flush |
| MergeEngine.MergeEngine.MergeVizVector | src/merge_engine.cpp:834-894 | exactly the same calls when the Python events are in memory |
| MergeEngine.MergeEngine.WritePerfOnly | src/merge_engine.cpp:923-937 | the naming calls, the calls of the perf events alone, and the flush |
| MergeEngine.MergeEngine.WriteVizOnlyStream | src/merge_engine.cpp:1051-1079 | the naming calls and those of the Python events alone |
| MergeEngine.MergeEngine.WriteVizOnlyVector | src/merge_engine.cpp:1087-1112 | the calls of the Python events alone |
| RawEvents.MachinesKnow | src/merge_engine.cpp:361-735 | after any stream, each thread's machines record what the events say: a take under way, the GIL held, calls entered, and whether the thread runs and since which event |
| RawEvents.EventDraws | src/merge_engine.cpp:361-735 | what an event of each kind draws after any stream, said of the stream: which marks and spans, on which track, from and to which events' times |
| RawEvents.RunDraws | src/merge_engine.cpp:361-817 | a run draws that for each event in turn, and in the flush the spans from each thread's last change to the last time |
| RawEvents.RunPerf | src/merge_engine.cpp:923-937 | the engine on perf events alone makes the naming calls and exactly these |
| RawEvents.GilIsDrawn | src/merge_engine.cpp:533-584 | "GIL acquire" begins at a take and ends at its return, where "GIL held" begins, which ends at the next drop |
| RawEvents.RepeatsDrawNothing | src/merge_engine.cpp:537-577 | a take while one is under way, a return without a take, a drop with nothing held, and what the filters reject draw nothing |
| RawEvents.CallIsDrawn | src/merge_engine.cpp:586-677 | a call's span begins at its entry and ends at its return |
| RawEvents.SleepIsDrawn | src/merge_engine.cpp:418-560 | a thread switched out is asleep, with that switch's reason, until it is switched in, woken, or sampled more than 10 microseconds later; an earlier sample draws nothing |
| RawEvents.RunIsDrawn | src/merge_engine.cpp:418-441 | a thread seen to run is on-cpu from then until it is switched out |
| RawEvents.SeenToRun | src/merge_engine.cpp:447-731 | a switch in always shows a thread to run, a first sample does, and after a switch out a wakeup or a sample more than 10 microseconds later |
| RawEvents.SleepReasons | src/merge_engine.cpp:274-283 | which reason is shown, by the low four bits of the state |
| RawEvents.Categories | src/merge_engine.cpp:607-624 | the category of each instrumented function |
| RawEvents.Int32Means | src/merge_engine.cpp:866-871 | ids of Python events are cut to 32 signed bits for the filters |
| RawEvents.VizDraws | src/merge_engine.cpp:866-887 | exactly those Python events are passed on that lie in the bounds, are long enough if complete, and whose process and thread pass the filters, shifted by the clock offset |
| WholeRuns.SourcesDoNotInterfere | src/merge_engine.cpp:993-1042 | of a merged run's calls, flush included, those of perf origin are the calls of the run on the perf events alone, and those of Python origin those of the run on the Python events alone |
| WholeRuns.MergeDoesNotInterfere | src/merge_engine.cpp:993-1042 | the same for the merge from any state, before the flush |
| WholeRuns.MergeIsSorted | src/merge_engine.cpp:1004-1006 | sorted sources are consumed in time order, perf before Python at equal times |
| WholeRuns.SortedHistory | src/merge_engine.cpp:361-784 | a sorted event stream performs acts in time order |
| WholeRuns.StateMeansPassed | src/merge_engine.cpp:792-794 | only threads that pass the filters ever have a scheduler state, so the flush skips none |
| WholeRuns.FlushOfThread | src/merge_engine.cpp:792-816 | in whatever order the table is walked, each thread gets its closing span once |
| WholeRuns.RunProjection | src/merge_engine.cpp:361-817 | all calls on a thread's tracks in a run, flush included, are those of the run on the events that name the thread |
| WholeRuns.RunBracketTracks | src/merge_engine.cpp:786-817 | the flush draws nothing on GIL and GPU tracks |
| WholeRuns.RunBrackets | src/merge_engine.cpp:533-677 | the bracketing results hold of whole runs: ends follow begins, names toggle, and tracks nest or show one span at a time under the same exact conditions |
| RunTimeline.RunSpans | src/merge_engine.cpp:786-817 | the scheduler spans of a run are those of the thread's timeline |
| RunTimeline.RunConservesTime | src/merge_engine.cpp:786-817 | on a sorted stream flushed no earlier than its last event, scheduler time is conserved on every thread, and tiled iff nothing was dropped |
| RunTimeline.RunAccountsUntil | src/merge_engine.cpp:786-817 | whenever the flush comes, a thread's spans are positive, ordered and disjoint, and with the dropped time add up to its life until the flush or its last change; time is conserved up to the flush iff that change is not after it |
| RunTimeline.ReorderedRunConservesTime | src/main.cpp:240-250 | for what the reorder buffer makes of a stream, flushed at the maximum of its first `c + 1` events: spans ordered and disjoint, time conserved up to the flush iff the last change is not after it, and to the end of the stream iff the flush or that change is at the end |
| RunTimeline.RunStreamed | src/main.cpp:240-250 | buffer and engine together: the calls are those of a run on a permutation of the input, sorted iff no event comes too late, flushed at that maximum |
| RunTimeline.EarlyFlushLosesTime | src/main.cpp:245-245 | for every `c`, a sorted stream on which that run draws 4 of the 8 nanoseconds that a flush at the end draws |
| RunTimeline.RunAlternatesIffNoneRepeats | src/merge_engine.cpp:368-515 | a run's spans on a thread alternate iff none is drawn after an odd number of empty periods since the one before it |
| RunTimeline.RunAlternates | src/merge_engine.cpp:368-515 | they do if the times of the events that schedule the thread strictly rise and no switch is from it to itself |
| RepeatedFirings.SilentRepeatsLeaveNoTrace | project-details.md:126-135 | if no repeat draws anything, erasing the repeats leaves all calls and states, whatever the filters, the bounds and what came before |
| RepeatedFirings.LoudRepeatIsMissed | src/merge_engine.cpp:533-677 | a repeat that draws something is missed when erased, if no other firing of its probe has its time |
| RepeatedFirings.RepeatedFiringsLeaveNoTrace | project-details.md:126-135 | erasing from the stream every GIL or API firing that repeats the one before it leaves the calls as they were if and only if no repeat draws anything; then it leaves all states as well |
| RepeatedFirings.RepeatsAlike | src/merge_engine.cpp:533-677 | an act repeats in the history iff its event repeats in the stream, unless the firing repeated did not get through |
| RepeatedFirings.RepeatOfHeardIsSilent | src/merge_engine.cpp:533-677 | a repeat of a firing that got through draws nothing |
| RepeatedFirings.UnboundedRepeatsAreSilent | src/merge_engine.cpp:365-365 | without time bounds, and with one filter verdict per thread, no repeat draws anything, from any state |
| RepeatedFirings.FirstHeardDraws | src/merge_engine.cpp:365-365 | the first firing of a probe to get through, if it repeats one that did not, draws something iff it is a take or an entry |
| RepeatedFirings.SilentFromStart | src/merge_engine.cpp:365-365 | from the start of a sorted run all repeats are silent iff none is such a take or entry |
| RepeatedFirings.ErasureKeepsSched | src/merge_engine.cpp:786-817 | the erasure, silent or not, leaves every scheduler state, and so the flush, as it was |
| RepeatedFirings.ErasureFromStart | project-details.md:126-135 | so from the start of a sorted run the erasure leaves all calls of the run, flush included, as they were iff no take or entry that is the first of its probe to get through repeats one that did not |
| RepeatedFirings.TimeBoundsHideTheFirst | src/merge_engine.cpp:365-365 | with a time bound between two takes the erasure does change the output |
| RepeatedFirings.TwoProcessesHideTheFirst | src/merge_engine.cpp:535-535 | so it does, without bounds, when the process filter rejects the first take and accepts the second |
| RepeatedFirings.HiddenDropIsNoLoss | src/merge_engine.cpp:575-583 | with drops in place of the takes it does not |
| Chunks.WindowIsChunk | src/chunking_writer.h:212-218 | in the covered range a time lies in a chunk's window if and only if it maps to that chunk |
| Chunks.LaterChunksStartLater | src/chunking_writer.h:212-218 | a time precedes the start of every chunk after its own |
| Chunks.ChunkInRange | src/chunking_writer.h:212-218 | every time maps to one of the planned chunks |
| Chunks.ChunkingIsFaithful | src/chunking_writer.h:48-123 | without copied spans, replayed names and samples, the files in order are exactly the unchunked log |
| Chunks.FilesAreNumbered | src/chunking_writer.h:198-210 | file numbers strictly rise and stay within the planned chunks |
| Chunks.FilesAreThoseReached | src/chunking_writer.h:198-210 | the chunks that have a file are exactly those the run has reached at some point; a skipped chunk has none |
| Chunks.SpansStartedEarlier | src/chunking_writer.h:257-280 | every span known when a later chunk opens started before that chunk |
| Chunks.ContextIsIntersection | src/chunking_writer.h:266-278 | the copy of a surviving span is its intersection with the chunk's window, unbounded on the right for the last chunk, and never empty |
| CarriedSpans.ChunksCarryOver | src/chunking_writer.h:48-123 | in every chunking each file has one copy for each complete call, and each Python span with a length, of the files before it that ends after the chunk's start: from that start to the call's end or the chunk's, with its name, category, process and thread, in the order written on the thread; and no other copy |
| CarriedSpans.CallsAreWritten | src/chunking_writer.h:48-123 | the files in order hold each call once, in order, Python naming events as naming calls |
| CarriedSpans.ReachedMeans | src/chunking_writer.h:198-218 | the chunk reached is the latest to which the time of any call belongs |
| Chunks.StoppingEarlyIsExact | src/chunking_writer.h:159-163 | on sorted samples the loop that stops at the first late sample picks exactly those in the window |
| Chunks.ReportCountsFiles | src/chunking_writer.h:138-138 | the number of chunks reported is at least the number of files, and equal to it if and only if the run has skipped no chunk |
| Chunks.EverySampleInItsFile | src/chunking_writer.h:149-168 | when sorted samples are set once, at any point of any run, each file from the chunk then open on holds exactly the samples of its own chunk, and earlier files none |
| Chunks.SampleIsWritten | src/chunking_writer.h:139-168 | a sample of the planned range is written if and only if the run reaches its chunk and the samples were set before or while that chunk was open |
| Chunks.SkippedChunkLosesSamples | src/chunking_writer.h:198-210 | a run that skips a chunk and loses its sample |
| ChunkingWriter.ExpireKeeps | src/chunking_writer.h:184-196 | dropping what has ended cannot be seen from any chunk still to come |
| ChunkingWriter.ExpireStackOk | src/chunking_writer.h:184-196 | pruning a stack at an event's time keeps every thread's stack equivalent to one never pruned |
| ChunkingWriter.CopyStack | src/chunking_writer.h:262-280 | emitting what survives of a pruned stack emits exactly the copies due to that thread |
| ChunkingWriter.EmitStack | src/chunking_writer.h:266-279 | the emission loop copies every span of the stack, clamped, and never skips one |
| ChunkingWriter.EmitSamples | src/chunking_writer.h:239-255 | the loop yields the samples of the window up to the first late one |
| ChunkingWriter.ChunkingWriter.ExpireSpans | src/chunking_writer.h:184-196 | one thread's stack loses exactly what has ended; the stacks still say what unpruned stacks would |
| ChunkingWriter.ChunkingWriter.EmitCopies | src/chunking_writer.h:257-280 | in whatever order the threads are visited, each stack is pruned at the chunk's start and each thread gets exactly the copies due to it |
| ChunkingWriter.ChunkingWriter.OpenChunk | src/chunking_writer.h:220-286 | one file is added and none changed; it starts with all names so far, the samples of its window and the copies due, has been asked for nothing yet, and every stack is pruned at its start |
| ChunkingWriter.ChunkingWriter.MaybeAdvanceChunk | src/chunking_writer.h:198-210 | if the time belongs to a later chunk, exactly one file is added, for that chunk, skipping any in between; otherwise nothing changes |
| ChunkingWriter.ChunkingWriter.WriteMetadata | src/chunking_writer.h:42-46 | the call joins the history; names are cached and written |
| ChunkingWriter.ChunkingWriter.WriteMark | src/chunking_writer.h:68-91 | the call joins the history, in the chunk its time has reached |
| ChunkingWriter.ChunkingWriter.WriteComplete | src/chunking_writer.h:48-66 | a complete span joins the history and is carried over as `CarriedSpans.ChunksCarryOver` says |
| ChunkingWriter.ChunkingWriter.WriteVizEvent | src/chunking_writer.h:93-123 | the same for a Python event; naming events take the naming path |
| ChunkingWriter.ChunkingWriter.SetMetricSamples | src/chunking_writer.h:149-168 | the samples join the history and those of the open chunk are written |
| ChunkingWriter.WriteChunks | src/chunking_writer.h:26-286 | for any calls, with times in any order, the files are a chunking of them: every call once in the chunk reached, no file for a chunk not reached, and at the top of each file all names so far, its samples and exactly the spans that a writer which forgets nothing would copy; each file carries over exactly the calls that last into its chunk |
| ChunkingWriter.NamesAreReplayed | src/chunking_writer.h:231-234 | at every point the open file's names are all names given so far |
| ProtoEncoder.VarintRoundTrip | src/perfetto_writer.h:33-39 | a written 64-bit varint takes 1 to 10 bytes and reads back as its value, leaving what follows unread |
| ProtoEncoder.VarintIsMinimal | src/perfetto_writer.h:33-39 | no shorter byte string reads as the same 64-bit value, even one whose top bits the reader drops |
| ProtoEncoder.Encoder.WriteVarint | src/perfetto_writer.h:33-39 | the loop appends the varint of its argument |
| ProtoEncoder.Encoder.WriteTag | src/perfetto_writer.h:41-43 | appends the tag of a field |
| ProtoEncoder.Encoder.WriteUint64 | src/perfetto_writer.h:45-48 | appends a varint field |
| ProtoEncoder.Encoder.WriteInt64 | src/perfetto_writer.h:50-53 | appends a signed value as its two's complement |
| ProtoEncoder.Encoder.WriteBytes | src/perfetto_writer.h:55-65 | appends a length-delimited field |
| ProtoEncoder.Encoder.WriteNested | src/perfetto_writer.h:67-72 | appends a submessage built in a buffer of its own |
| ProtoEncoder.TwosComplementRoundTrip | src/perfetto_writer.h:50-53 | the cast of a signed value can be undone |
| ProtoEncoder.FieldRoundTrip | src/perfetto_writer.h:41-72 | any encoded field reads back, leaving what follows unread |
| ProtoEncoder.FieldsRoundTrip | src/perfetto_writer.h:41-72 | any field list reads back field by field |
| ProtoEncoder.MessageRoundTrip | src/perfetto_writer.h:67-72 | decoding inverts encoding for messages nested to any depth |
| TracePackets.UuidRoundTrip | src/perfetto_writer.cpp:27-46 | a bounded track is recovered from its uuid |
| TracePackets.UuidsAreDistinct | src/perfetto_writer.h:190-196 | the uuid families are disjoint and injective on bounded ids |
| TracePackets.OffsetsAreInverted | src/merge_engine.h:90-92 | the offsets the engine adds to a tid select that thread's scheduler, GIL and GPU tracks |
| TracePackets.EventsFollowTheirTrack | src/perfetto_writer.cpp:143-182 | in a closed file every event's track is described earlier |
| TracePackets.DescribedOnce | src/perfetto_writer.cpp:109-146 | no uuid is described twice |
| TracePackets.ParentsAreDescribed | src/perfetto_writer.cpp:52-81 | nonzero parents are described and lie strictly higher, so the tracks form a forest |
| TracePackets.OnlyTheFirstClears | src/perfetto_writer.cpp:270-275 | no event after the first clears the reader's tables |
| PerfettoWriter.InternedApart | src/perfetto_writer.cpp:222-250 | interned ids are injective in each table |
| PerfettoWriter.NsMeans | src/perfetto_writer.cpp:260-260 | times in microseconds are written as nanoseconds: exactly, if they are whole nanoseconds below 2^64, and rounded down otherwise |
| PerfettoWriter.CallsMean | src/perfetto_writer.cpp:295-348 | what a reader sees of each kind of call and each phase of a Python event, at a time given in nanoseconds |
| PerfettoWriter.SamplesMean | src/perfetto_writer.cpp:379-403 | and of a sample |
| PerfettoWriter.EventReads | src/perfetto_writer.cpp:254-293 | the next event reads back as its type, track, time, name and category, whether or not its strings are new |
| PerfettoWriter.ValueReads | src/perfetto_writer.cpp:379-403 | a sample reads back as its metric, time and bits |
| PerfettoWriter.CounterReads | src/perfetto_writer.cpp:360-377 | a new metric's descriptor teaches the reader its name and disturbs nothing |
| PerfettoWriter.ThreadTrackShape | src/perfetto_writer.cpp:153-181 | a thread's track is recovered from its uuid and belongs under its thread's group |
| PerfettoWriter.FewWords | src/perfetto_writer.cpp:109-250 | a log brings up at most five strings per entry, titles included |
| PerfettoWriter.EventSound | src/perfetto_writer.cpp:254-293 | one more event is read as written, and its packet spells only strings that have come up, with ids in range |
| PerfettoWriter.FlushOne | src/perfetto_writer.cpp:86-94 | flushing one group describes it under its given name or placeholder and keeps the hierarchy |
| PerfettoWriter.PerfettoWriter.EnsureProcessGroup | src/perfetto_writer.cpp:109-122 | the process group is defined, once, and waits for its name |
| PerfettoWriter.PerfettoWriter.EnsureThreadGroup | src/perfetto_writer.cpp:124-141 | the same for a thread group, owned by the first process that needs it |
| PerfettoWriter.PerfettoWriter.EnsureTrack | src/perfetto_writer.cpp:143-182 | the track is described on first use under its group, with its name and rank |
| PerfettoWriter.PerfettoWriter.InternName | src/perfetto_writer.cpp:222-235 | returns the name's id, and its table entry exactly when it is new |
| PerfettoWriter.PerfettoWriter.InternCategory | src/perfetto_writer.cpp:237-250 | the same for categories |
| PerfettoWriter.PerfettoWriter.WriteTrackEvent | src/perfetto_writer.cpp:254-293 | a reader sees exactly one event more, as written; the hierarchy is kept |
| PerfettoWriter.PerfettoWriter.WriteComplete | src/perfetto_writer.cpp:295-302 | a reader sees begin and end; one event is counted |
| PerfettoWriter.PerfettoWriter.WriteVizEvent | src/perfetto_writer.cpp:323-348 | each phase is seen as the event it stands for |
| PerfettoWriter.PerfettoWriter.WriteMetadata | src/perfetto_writer.cpp:186-207 | a name replaces the one before it; a reader sees no event |
| PerfettoWriter.PerfettoWriter.WriteCounter | src/perfetto_writer.cpp:352-404 | a reader sees one sample more, of that metric; its track is described on first use |
| PerfettoWriter.PerfettoWriter.FlushDeferred | src/perfetto_writer.cpp:85-97 | in whatever order the groups are flushed, the file's tracks are closed and shown under their last names |
| PerfettoWriter.PerfettoWriter.Finalize | src/perfetto_writer.cpp:99-105 | finishes the file once; a second call changes nothing |
| PerfettoWriter.WriteTrace | src/perfetto_writer.cpp:254-404 | for every log a reader recovers every event in order, and the packets spell only the strings and titles it brings up; for bounded ids each track is described once, before its events, under described parents, with its rank, its last name and, for a thread, the process that first claimed it |
| TrackNames.TracksAreShown | src/perfetto_writer.cpp:143-182 | a thread's tracks, found by their uuid numbers, stand below its group, ranked -100, -50, -25 and 0 for scheduling, GIL, GPU and stacks, each with its own title |
| TrackNames.LastNameCounts | src/perfetto_writer.cpp:186-207 | the name kept for a process or thread is the one in the last entry of the log that names it |
| TrackNames.GroupsAreNamed | src/perfetto_writer.cpp:85-97 | a group is shown under that name, or else as a placeholder |
| TrackNames.FirstNeedOwns | src/perfetto_writer.cpp:124-141 | a thread's group belongs to the process of the first entry that names the thread or is an event on one of its tracks |
| PacketWire.PacketRoundTrip | src/perfetto_writer.h:124-231 | a packet's fields determine it |
| PacketWire.BitsRoundTrip | src/perfetto_writer.cpp:394-400 | the eight bytes of a double give back its bits |
| PacketWire.WriteBits | src/perfetto_writer.cpp:397-400 | the loop appends those bytes, lowest first |
| PacketWire.EncodeDescriptor | src/perfetto_writer.cpp:59-79 | the descriptor's buffer encodes its fields, empty ones left out |
| PacketWire.EncodeCounter | src/perfetto_writer.cpp:368-375 | the same for a counter's descriptor |
| PacketWire.EncodeEvent | src/perfetto_writer.cpp:278-285 | the same for an event; ends carry no name |
| PacketWire.EncodeInterned | src/perfetto_writer.cpp:230-248 | the same for the strings a packet defines |
| PacketWire.EncodePacket | src/perfetto_writer.cpp:268-291 | the packet's buffer encodes all its fields; which bytes these are is said by `WireExamples` |
| PacketWire.WriteFile | src/perfetto_writer.cpp:19-23 | the file is the packets, each wrapped as field 1 |
| PacketWire.FileRoundTrip | src/perfetto_writer.cpp:19-23 | reading a file's bytes gives back exactly the packets written to it, by a reader that takes clearing from bit 0 of the flags and rejects an event with neither flag |
| PacketWire.FileHoldsSequence | src/perfetto_writer.cpp:269-275 | in the bytes of a file all event packets carry one nonzero sequence id; the first has the clearing flag, every later one has it off and the needs-state flag on |
| PacketWire.PacketWithin | src/perfetto_writer.h:45-72 | a packet of short strings and 64-bit numbers fits every length prefix |
| PacketWire.LogIsWritable | src/perfetto_writer.cpp:254-404 | if the strings that a log brings up, titles included, are short byte strings, every packet written for it can be encoded |
| PacketWire.ShortWordsSuffice | src/perfetto_writer.cpp:254-404 | for logs of fewer than 2^58 entries that is the whole condition |
| PacketWire.WriteTraceFile | src/perfetto_writer.cpp:254-404 | from log to bytes and back: if the strings and titles that the log brings up can be written, the events recovered from the bytes are those of the log, in one sequence of which only the first event clears the tables |
| WireExamples.EndEvent | src/perfetto_writer.cpp:278-285 | the bytes of the end of a slice |
| WireExamples.NamedEvent | src/perfetto_writer.cpp:278-285 | the bytes of a begin and of an instant |
| WireExamples.ValueEvent | src/perfetto_writer.cpp:389-401 | the bytes of a counter's value |
| WireExamples.PlainPacket | src/perfetto_writer.cpp:268-291 | the bytes around an event: sequence, flags, time |
| WireExamples.InternedStrings | src/perfetto_writer.cpp:222-250 | the bytes of a new name and a new category |
| WireExamples.InterningPacket | src/perfetto_writer.cpp:287-291 | and their place after the event |
| WireExamples.GroupPacket | src/perfetto_writer.cpp:52-81 | the bytes of a group's descriptor |
| WireExamples.TrackPacket | src/perfetto_writer.cpp:52-81 | the bytes of a thread track's descriptor, with its negative rank |
| WireExamples.CounterPacket | src/perfetto_writer.cpp:366-377 | the bytes of a counter's descriptor |
| TraceFiles.ChunksShowLatestNames | src/chunking_writer.h:231-234 | every chunk shows its tracks under the latest names of the whole run so far, wherever they were given |
| TraceFiles.ChunkWords | src/chunking_writer.h:220-286 | whatever a chunk file spells, replays, copies and titles included, the run has brought up |
| TraceFiles.ChunksCanBeSpelled | src/chunking_writer.h:220-286 | if the strings and titles that a run brings up can be written, those of every chunk can |
| TraceFiles.WriteChunkedTrace | src/chunking_writer.h:198-234 | a run becomes a chunking of its calls, and each chunk a file that can be read on its own, back to its events if the run's strings and titles can be written |
| EngineFiles.RunIds | src/merge_engine.cpp:361-817 | perf events and a thread map with ids in range make calls with ids in range, flush included |
| EngineFiles.MergedRunIds | src/merge_engine.cpp:993-1042 | so do the calls of a merged run |
| EngineFiles.WriteMergedRun | src/main.cpp:395-431 | a merged run, from its two sources to the bytes of its file: its calls of perf origin are what the events draw, those of Python origin the events passed on; a reader of the bytes sees everything that each perf event draws, at that event's nanosecond; with ids in range, each track is described once, before its events and below described parents |
| EngineFiles.RunShowsPerf | src/merge_engine.cpp:361-817 | everything that each perf event of a run draws is recovered from the run's log, ending or standing at the event's own time in nanoseconds |
| EngineFiles.GilIsSeen | src/merge_engine.cpp:533-584 | take, return and drop at given nanoseconds are, in the file, the ends of "GIL acquire" and "GIL held" on track 300000000 + tid at those nanoseconds |

## Left out

- File opening, mapping, writing and closing, the command line and progress output: files are byte sequences, readers are event sequences.
- Decoding perf.data and classifying its events: the perf reader is an arbitrary finite stream.
- The JSON and compressed-trace readers: a Python trace file is a sequence of events.
- Rounding of floating-point times: microseconds are exact reals, nanoseconds exact integers; the cast of a time to unsigned nanoseconds is the floor, wrapped to 64 bits, and for negative times the source's cast is undefined.
- The cast of a chunk number to `int`: numbers beyond its range do not arise in the model.
- Display strings: the text of labels and titles, the JSON of arguments and the bits of doubles are arbitrary fixed functions (`Rendering`); the clean-up of THREAD_MAP names and the substring search of the name filter are not modelled, the filter is a fixed verdict per thread.
- Building the thread-to-process map, the time bounds and the naming calls: they are fixed parameters of a run (`Config`), as is the perf stream's last timestamp.
- GPU and NCCL functions are told apart by kind instead of by their name strings; the names are distinct in the source.
- `std::priority_queue` is a binary heap kept in a sequence; `std::sort` is any sorted permutation.
- Unordered containers are walked in an arbitrary order.
- Verbose diagnostic counters of the engine: they change no output.
- Calls on a chunking writer or a Perfetto writer after it has been finalized.
- A Perfetto writer opened for a chunk writes when the chunk's log is complete instead of call by call.
- Packets are values between the writer and its bytes; the source encodes each packet at once.
- The Chrome trace writer, the metric file reader and the diagnostic tools.
- PerfettoWriter.WriteTrace: tracks are claimed to be closed only for process ids below 10^8, thread ids below 10^7 and at most 10^8 metrics, the ranges the uuid bases are laid out for.
- PacketWire.WriteTraceFile: reading back is claimed for logs whose strings and titles, those of the log and no others, are strings of bytes, shorter than 2^60 each and fewer than 2^61; `TraceFiles.WriteChunkedTrace` claims it for runs that bring up such strings.
- RepeatedFirings.RepeatedFiringsLeaveNoTrace: asks that no two firings of one probe share a time, since otherwise a firing that is kept could draw the very call of one that is erased; that silent repeats leave no trace needs nothing of the kind.

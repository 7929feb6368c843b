# chronomind scheduling engines in Dafny

This project models the core of chronomind, a CPU scheduling simulator. The
simulator takes a list of processes: each has a name, an arrival instant, a
burst, and an optional plan of `CPU`/`BLOCK` segments. Four policies turn that
list into a schedule: FIFO, non-preemptive SJF, preemptive SRTF and Round
Robin. A schedule is a timeline of labelled integer intervals (`<name>` for
processor time, `<name>_BLOCK` for an I/O wait), the CPU intervals of every
process, and per-process turnaround and waiting times with their averages.

Each engine is a discrete-event state machine over integer time, and each is
modelled here as it is written, as an imperative Dafny method with a `while`
loop over an explicit state record:

- per-process pattern cursors, or working copies of the plans;
- the ready queue;
- the blocked table, kept in insertion order as Python's `dict` is;
- the set of finished processes and their completion instants;
- the clock.

Every step is proved to keep an invariant. The invariant says:

- every process is in exactly one place (ready, blocked, running, finished or not yet arrived);
- the CPU intervals recorded so far are non-empty, come after the arrival, and never overlap;
- the CPU time given to each process so far matches the part of its plan that has been consumed.

Each loop is shown to terminate by a lexicographic measure: the work left,
then the number of future events.

The engines guarantee the following about the result they return:

- every process received exactly the CPU time of its plan (`Trace.CpuServed`);
  for SRTF this holds when no plan has a zero-length BLOCK segment right after
  another BLOCK segment, and otherwise no process receives more than its plan;
- the CPU intervals of all processes are pairwise disjoint and none starts
  before its process arrives (`Trace.OneCpu`);
- every timeline slice belongs to a process (`Trace.Labelled`): a CPU slice
  is one of that process's CPU intervals, and a `_BLOCK` slice starts no
  earlier than its arrival and is as long as one of its plan's BLOCK segments;
- each engine's report sets turnaround to the finishing instant minus the
  arrival and waiting as the engine's metrics block computes it from that
  turnaround (`Metrics.Waited`), with averages kept exact as a sum and the
  divisor `max(1, n)`; the `Schedule` contracts keep waiting's relation to
  turnaround but bound turnaround only from below, by the end of the
  process's last CPU interval;
- under Round Robin, no CPU interval is longer than the quantum.

Around the engines the model covers the policy table that names them, the
parser that turns the text of a process-table row into a plan, the chart's
fusion of touching timeline slices, and the timeline post-processing of the
spreadsheet export.

Modules:

- `Models` (models.dfy): process, segment, slice and result records; the effective plan of a process.
- `Ledger` (ledger.dfy): the blocked table, the stable sort by unblock instant, and the release of due processes.
- `Progress` (progress.dfy): set and sequence helpers and the counting measures used for termination.
- `Trace` (trace.dfy): the timeline and interval properties, by index and by name.
- `Metrics` (metrics.dfy): the turnaround/waiting block shared by the engines.
- `Fifo` (fifo.dfy): the FIFO engine.
- `Sjf` (sjf.dfy): the SJF engine.
- `Srtf` (srtf.dfy): the SRTF engine.
- `RoundRobin` (rr.dfy): the Round Robin engine, and its metrics block as written.
- `Factory` (factory.dfy): the policy table, its lookup and listing, and the call of the chosen engine.
- `Parser` (parser.dfy): the pattern-text parser of the process table and the burst derived from it.
- `Timeline` (timeline.dfy): the chart's fusion of touching slices with the same label.
- `Export` (export.dfy): row order, I/O intervals, CPU segments, segment fusion and painted columns of the spreadsheet's Gantt grid.

## Model

| member | source | states |
|---|---|---|
| Models.EmptyResult | core/models.py:10-20 | a default result has an empty timeline, empty slice/turnaround/waiting maps and no averages |
| Models.EffectivePattern | algorithms/fifo.py:20-23 | the plan an engine works from is the explicit pattern when non-empty, otherwise one CPU segment of the burst |
| Models.Names | core/models.py:22-27 | every process's name is among the names of the input |
| Models.NamesExact | core/models.py:22-27 | every name of the input belongs to some process |
| Ledger.ReleaseDue | algorithms/sjf.py:56-62 | releasing at `t` walks the blocked table sorted stably by unblock instant, appends every due process not finished or already ready, and leaves exactly the still-pending entries |
| Ledger.SortBySorted | algorithms/sjf.py:58 | the stable sort by unblock instant yields a list ordered by that key |
| Ledger.SortByMultiset | algorithms/sjf.py:58 | the sort is a permutation of the blocked table's keys |
| Ledger.SortByWithKey | algorithms/sjf.py:58 | among entries with equal unblock instant the sort keeps insertion order (stability) |
| Ledger.DropIsPending | algorithms/sjf.py:59-60 | removing every released entry leaves exactly those whose unblock instant is later than `t` |
| Trace.Publish | algorithms/fifo.py:186-193 | the per-index run state, once keyed by name, gives a result where each process got its plan's CPU, the CPU intervals never overlap, and every slice is labelled by a process |
| Trace.AddInterval | algorithms/fifo.py:121-127 | a CPU piece that starts at the clock and ends later keeps the intervals non-empty, after arrival and non-overlapping |
| Trace.TimelineGrows | algorithms/fifo.py:123-124 | recording more CPU intervals keeps every timeline slice attributed |
| Trace.BlockLengthsHas | algorithms/fifo.py:84-88 | every BLOCK segment of a plan contributes its length to the plan's BLOCK lengths |
| Trace.BlockLengthsFrom | algorithms/fifo.py:84-88 | every BLOCK length of a plan is the length of one of its BLOCK segments, so each `_BLOCK` slice, which the invariant ties to a BLOCK length of its process's plan, has a segment's length |
| Metrics.Assemble | algorithms/sjf.py:170-190 | turnaround is finish minus arrival and waiting is that minus the plan's CPU and BLOCK totals, floored when asked; averages are the sums over `max(1, n)` |
| Metrics.PlanMetrics | algorithms/fifo.py:177-193 | with every finish at or after its arrival, turnaround is the unfloored difference and waiting follows `Waited` |
| Fifo.EnqueueArrivals | algorithms/fifo.py:36-42 | arrivals are admitted by walking the input in order up to the first process not yet arrived, appended to the ready queue |
| Fifo.UnblockReady | algorithms/fifo.py:44-50 | every process whose unblock instant is at or before the clock is appended to the ready queue in unblock-instant order; the rest stay blocked |
| Fifo.Dispatch | algorithms/fifo.py:67-96 | the head of the ready queue is taken off it: an exhausted plan completes it now, a BLOCK segment appends a `_BLOCK` slice from now for its length, blocks it until then and drops that segment, a CPU segment makes it the running process with that segment's length left; nothing else changes |
| Fifo.StepEnd | algorithms/fifo.py:107-119 | the running piece ends at the earliest of the segment end, the next arrival and the next unblock that lie after now |
| Fifo.JumpTo | algorithms/fifo.py:98-103 | with nothing ready the clock jumps to the earlier of the next arrival and the next unblock |
| Fifo.JumpPasses | algorithms/fifo.py:98-104 | a jump moves the clock forward and strictly reduces the number of future events |
| Fifo.RunActive | algorithms/fifo.py:121-131 | the clock moves to the earliest of the segment end, the next arrival and the next unblock; one CPU slice from the old clock to it is recorded on the timeline and for the process, the remainder drops by its length, due unblocks then arrivals are queued in that order, and a used-up segment is ended as `EndSegment` states |
| Fifo.EndSegment | algorithms/fifo.py:133-163 | the used-up CPU segment is dropped; then an empty plan completes the process now, a BLOCK appends its slice, blocks it until now plus the length and drops that segment, and a CPU segment keeps it running with that length left; nothing else changes |
| Fifo.Idle | algorithms/fifo.py:97-104 | with no process ready, the loop stops exactly when no arrival or unblock is left, leaving the state as it is (and then every process is finished); otherwise only the clock moves, to the earlier of the next arrival and the next later unblock |
| Fifo.Take | algorithms/fifo.py:67-131 | a free CPU with a process ready dispatches the head as `Dispatch` states and, when that loaded a CPU segment, runs it one step as `RunActive` states |
| Fifo.Act | algorithms/fifo.py:67-175 | a busy CPU runs one step (a slice to `StepEnd`, then the segment's end if it was used up); a free CPU with nothing ready stops exactly when no event is left or jumps the clock; otherwise the head is dispatched and, when running, stepped |
| Fifo.Step | algorithms/fifo.py:62-175 | one pass: the due unblocks are queued in unblock-instant order, then the due arrivals in input order, then the CPU acts as `Act` states; the invariant is kept and the work left or the number of future events decreases |
| Fifo.Drained | algorithms/fifo.py:101-102 | when nothing is ready, blocked or still to arrive, every process has finished |
| Fifo.AllDone | algorithms/fifo.py:62 | once the finished set has all processes, each has a completion instant no earlier than its arrival and after its last CPU interval |
| Fifo.AllServed | algorithms/fifo.py:106-163 | a finished process has received exactly the CPU time of its plan |
| Fifo.Report | algorithms/fifo.py:177-193 | the result carries the trace promises, turnaround as finish minus arrival, unfloored waiting and the averages |
| Fifo.Schedule | algorithms/fifo.py:7-193 | the FIFO result: whole plans served, disjoint CPU intervals, labelled slices, unfloored turnaround and waiting, averages over `max(1, n)` |
| Sjf.FirstMin | algorithms/sjf.py:93 | the selected position holds the least remaining CPU, and every earlier position holds strictly more |
| Sjf.Admit | algorithms/sjf.py:45-54 | processes not started, arrived, not finished, not blocked and not ready are appended in input order |
| Sjf.Release | algorithms/sjf.py:56-62 | due blocked processes are appended in stable unblock-instant order, and the others stay blocked |
| Sjf.Events | algorithms/sjf.py:80-81 | the new state is the due unblocks released in unblock-instant order and then the arrivals admitted in input order, the invariant is kept and nothing is left due |
| Sjf.Close | algorithms/sjf.py:96-101 | a process with no segment left is finished with its completion at the end of its last segment; nothing else changes |
| Sjf.Park | algorithms/sjf.py:106-122 | a BLOCK segment parks the process until now plus its duration, with a `_BLOCK` slice only when the duration is positive |
| Sjf.Retire | algorithms/sjf.py:116-119 | a parked process whose plan is exhausted is finished with its completion at the end of its last segment, and its blocked entry is kept |
| Sjf.RunCpu | algorithms/sjf.py:125-132 | a CPU segment runs as one slice of exactly its duration and the clock jumps to its end |
| Sjf.Requeue | algorithms/sjf.py:152-155 | a process whose next segment is CPU goes back to the end of the ready list |
| Sjf.Serve | algorithms/sjf.py:92-168 | the process at the first least-remaining-CPU position (`Pick`) is taken off the ready list and closed, parked, or run for its whole CPU segment; after a run the next segment places it and the events due at the new clock are processed, and with nothing then ready the clock jumps to the next event or the loop stops; the invariant is kept and the work left drops |
| Sjf.Consume | algorithms/sjf.py:94-168 | the process in hand is closed when its plan is used up, parked (and closed if that was its last segment) at a BLOCK, and otherwise served as `RunServed` states |
| Sjf.RunServed | algorithms/sjf.py:125-168 | the CPU segment runs whole, the next segment places the process, unblocks then arrivals at the new clock are processed, and with nothing then ready the clock jumps to the next event or the loop stops |
| Sjf.Idle | algorithms/sjf.py:84-90 | with nothing ready, the loop stops exactly when there is no next event, and otherwise the clock moves to that event and nothing else changes |
| Sjf.JumpPasses | algorithms/sjf.py:64-73 | the next future event lies after the clock, and jumping to it reduces the number of future events |
| Sjf.Drained | algorithms/sjf.py:84-88 | with nothing ready and no future event, every process has finished, so the loop's break is reached only at the end |
| Sjf.Step | algorithms/sjf.py:78-168 | one pass: the events due now are processed as `Events` states; with nothing then ready the loop stops exactly when there is no next event and otherwise only the clock moves to it; else the process at `Pick` is taken off the list and consumed as `Serve` states; the invariant is kept and the work left or the future events decrease |
| Sjf.FinalState | algorithms/sjf.py:112-119 | at the end every process received its plan's CPU in bursts matching the plan, and finishes no earlier than its arrival or any of its slices |
| Sjf.Report | algorithms/sjf.py:170-190 | the result carries the trace promises, turnaround as finish minus arrival (never negative, so the floor changes nothing), floored waiting and the averages |
| Sjf.Schedule | algorithms/sjf.py:6-190 | the SJF result: whole plans served in bursts of exactly each CPU segment, disjoint CPU intervals, labelled slices, floored metrics, averages over `max(1, n)` |
| Srtf.Least | algorithms/srtf.py:141-143 | the head of a stable sort by key: no key precedes the chosen one, and every earlier position's key comes after it |
| Srtf.Keys | algorithms/srtf.py:142 | each ready process's key is its remaining CPU time, its arrival and its input position, in ready-list order |
| Srtf.Pick | algorithms/srtf.py:141-143 | the process the sort puts first has the least key among the ready processes |
| Srtf.PickFirst | algorithms/srtf.py:141-143 | keys end in the input position, so the picked process strictly precedes every other ready process whatever the list's order |
| Srtf.MakeReadyInv | algorithms/srtf.py:68-92 | make_ready_if_cpu on a loose process, at an instant between its arrival and the clock and after its CPU intervals, puts it back in exactly one place |
| Srtf.BlockShape | algorithms/srtf.py:80-87 | a process facing a BLOCK segment is blocked until the instant plus its length, drawn when positive, its cursor past the segment and its CPU remainder dropped |
| Srtf.Release | algorithms/srtf.py:101-106 | the blocked processes are visited in stable unblock-instant order and each due one is released through make_ready_if_cpu at its unblock instant; the invariant is kept, and nothing stays overdue without chained zero-length BLOCKs |
| Srtf.Scan | algorithms/srtf.py:107-112 | every arrived process that has not started, is not finished, blocked or ready is admitted in input order; with everyone already admitted nothing changes |
| Srtf.Events | algorithms/srtf.py:101-112 | unblocks by unblock instant, then arrivals in input order, keep the invariant |
| Srtf.JumpPasses | algorithms/srtf.py:114-124 | the next event lies after the clock, and jumping to it passes at least one of the events still to come |
| Srtf.Stuck | algorithms/srtf.py:132-136 | the loop's exit with nothing ready and no event left leaves every process finished or blocked with an unblock instant already passed |
| Srtf.StuckAt | algorithms/srtf.py:132-136 | in such a state an unfinished process is blocked and overdue |
| Srtf.Drained | algorithms/srtf.py:132-136 | without chained zero-length BLOCK segments, that exit is reached only when every process has finished |
| Srtf.HorizonBounds | algorithms/srtf.py:158-182 | the run lasts a positive time, at most the rest of the segment, ends with it or at the next event, and no arrival or unblock falls strictly inside it |
| Srtf.ChainStep | algorithms/srtf.py:84-106 | without chained zero-length BLOCK segments, a BLOCK right after a BLOCK lasts a positive time |
| Srtf.PopDone | algorithms/srtf.py:146-151 | a popped process whose plan is used up completes at the clock, even when it is a stale entry left in the ready list by the arrival scan |
| Srtf.StaleCompletion | algorithms/srtf.py:107-112 | for "A" arriving at 0 with plan CPU 2, BLOCK 3, the first pass leaves a stale ready entry beside a block until 5, and the second pass completes "A" at 2 |
| Srtf.Serve | algorithms/srtf.py:141-224 | the process `Pick` puts first is taken off the ready list; with its plan used up it completes at the clock, facing a BLOCK it goes through make_ready_if_cpu, with no remainder nothing more happens, and otherwise it runs from the clock to `Horizon` as one interval, the events at that instant are processed and the code after the run places it; the invariant is kept and a measure drops |
| Srtf.PoppedRuns | algorithms/srtf.py:158-190 | a served process with a remainder runs from the clock to `Horizon`, a positive time within that remainder, and only its own CPU intervals grow, by that one interval |
| Srtf.Step | algorithms/srtf.py:127-224 | the events at the clock are processed; then a non-empty ready list is served as `Serve` states, and otherwise the loop stops exactly when there is no next event, or the clock jumps to it and its events are processed |
| Srtf.Enter | algorithms/srtf.py:94-99 | the initial admission of every process arrived at the first arrival instant, in input order, establishes the invariant |
| Srtf.Run | algorithms/srtf.py:94-226 | the loop ends with every process finished or overdue, a consistent final trace, and every process finished when no plan chains zero-length BLOCKs |
| Srtf.Served | algorithms/srtf.py:184-224 | the CPU time a process received never exceeds its plan's, and equals it once its plan is used up |
| Srtf.FinishBound | algorithms/srtf.py:235-236 | each finish instant (completion or final clock) is no earlier than the arrival and ends every CPU interval |
| Srtf.FinalState | algorithms/srtf.py:228-236 | the final state gives per-process intervals, timeline and finish instants fit for reporting |
| Srtf.Report | algorithms/srtf.py:228-249 | the result carries the timeline and intervals by name, turnaround as finish minus arrival, floored waiting and the averages |
| Srtf.Schedule | algorithms/srtf.py:28-249 | an empty input gives the empty result; otherwise disjoint intervals after arrival, labelled slices, at most the plan's CPU (all of it without chained zero BLOCKs), floored metrics |
| RoundRobin.InsertByNameSorted | algorithms/round_robin.py:54 | inserting into a name-sorted list keeps it sorted by name |
| RoundRobin.SortByNameProps | algorithms/round_robin.py:54 | sorting the blocked processes by name gives a permutation, in string order, without duplicates |
| RoundRobin.QuantizedAdd | algorithms/round_robin.py:109-114 | a CPU interval no longer than the quantum keeps every interval within the quantum |
| RoundRobin.EnqueueArrivals | algorithms/round_robin.py:41-47 | the arrivals cursor walks the sorted input, queueing every process arrived by now and stopping at the first that has not |
| RoundRobin.ReleaseByName | algorithms/round_robin.py:54-58 | the blocked processes are visited by name, due ones not finished go to the back of the queue, and exactly the later ones stay blocked |
| RoundRobin.ReleaseAfterTurn | algorithms/round_robin.py:121-125 | after a turn the blocked table is visited in its own order, and due processes other than the one just run and not finished are queued |
| RoundRobin.Serve | algorithms/round_robin.py:74-161 | the head of the queue is taken off it and handled as `Handle` states: completed now, parked, or given one turn; the invariant is kept, the work left decreases and every CPU interval stays within the quantum |
| RoundRobin.Handle | algorithms/round_robin.py:80-161 | the process taken is completed now when its pattern is empty, parked when it starts with a BLOCK, and otherwise given a turn as `Turn` states; no other process changes |
| RoundRobin.Park | algorithms/round_robin.py:94-103 | a leading BLOCK segment blocks the process until now plus its length, drawn when positive, and the clock stays |
| RoundRobin.Turn | algorithms/round_robin.py:105-131 | the process runs from the clock for the quantum or the rest of the segment, whichever is shorter, as one interval; then arrivals are admitted, due unblocks of others are queued in table order, and the turn ends as `AfterTurn` states |
| RoundRobin.AfterTurn | algorithms/round_robin.py:127-161 | with some of the segment left the process is appended to the queue and nothing else changes; otherwise its segment is consumed and it moves on as `NextSegment` states |
| RoundRobin.NextSegment | algorithms/round_robin.py:133-161 | after a used-up CPU segment an empty pattern completes the process now, a BLOCK parks it with its slice, and a CPU segment loads its length and requeues it; clock and intervals stay |
| RoundRobin.Idle | algorithms/round_robin.py:63-72 | with nothing ready the loop stops exactly when no later unblock or arrival is left, leaving the state as it is and every process done; otherwise only the clock moves, to the earliest of them |
| RoundRobin.JumpPasses | algorithms/round_robin.py:64-70 | jumping to the next event passes at least one of the events still to come |
| RoundRobin.Drained | algorithms/round_robin.py:68-69 | no next event with nothing ready means every process is done, so the `break` never leaves one unfinished |
| RoundRobin.AllDone | algorithms/round_robin.py:52 | with nothing ready or blocked and every unfinished process already arrived, the finished set holds every process |
| RoundRobin.Step | algorithms/round_robin.py:52-161 | one pass: the due unblocks are queued in name order, then the due arrivals; with nothing then ready the loop stops exactly when no event is left and otherwise only the clock moves to the next one; else the head of the queue is handled as `Serve` states; the invariant and the quantum bound are kept, and the work left or the future events decrease |
| RoundRobin.Run | algorithms/round_robin.py:29-161 | the loop ends with every process done, its pattern used up, a consistent trace and every interval within the quantum |
| RoundRobin.FinalState | algorithms/round_robin.py:163-171 | at the end every working copy is empty and the per-process intervals, timeline and finish instants are fit for reporting |
| RoundRobin.ByArrivalProps | algorithms/round_robin.py:21 | the stable sort by arrival is a permutation, ordered by arrival, stable among ties, with the same names |
| RoundRobin.Report | algorithms/round_robin.py:163-184 | the result carries the trace promises, turnaround as finish minus arrival, waiting from the plan's CPU and BLOCK totals floored at zero, and the averages |
| RoundRobin.Schedule | algorithms/round_robin.py:13-184 | no result without a positive quantum, the empty result for no processes, otherwise whole plans served in quantum-bounded disjoint intervals with the metrics over the input sorted by arrival |
| RoundRobin.WrittenPlan | algorithms/round_robin.py:167 | the plan the metrics block reads is the explicit pattern when there is one, and otherwise the consumed working copy |
| RoundRobin.ReportAsWritten | algorithms/round_robin.py:163-184 | the metrics block as written keeps the trace promises and charges each process only the plan it reads |
| RoundRobin.MetricsAsWritten | algorithms/round_robin.py:163-174 | with the working copies used up, turnaround is finish minus arrival and waiting is turnaround less the totals of the plan read at line 167, floored at zero; averages over `max(1, n)` |
| RoundRobin.ScheduleAsWritten | algorithms/round_robin.py:13-184 | the engine with the metrics block as written |
| RoundRobin.WaitingAsWrittenOverstates | algorithms/round_robin.py:167-174 | for one process with burst 3 and no pattern, the waiting as written equals its turnaround, while the intended waiting is 3 less |
| Factory.Lookup | core/scheduler_factory.py:18 | a name finds a policy exactly when the table has an entry of that name, and it is that entry's policy |
| Factory.Keys | core/scheduler_factory.py:23 | the listed keys are the table's names in its order |
| Factory.ListAlgorithmsExact | core/scheduler_factory.py:9-14 | the listing is "FIFO", "SJF", "SRTF", "Round Robin" in that order, without duplicates |
| Factory.CreateListed | core/scheduler_factory.py:16-23 | a name creates a policy exactly when it is listed, and any other name gives none |
| Factory.CreateEach | core/scheduler_factory.py:9-19 | each listed name creates its own policy |
| Factory.CreateOnto | core/scheduler_factory.py:9-19 | every policy is created by exactly one name |
| Factory.NameOf | core/scheduler_factory.py:9-14 | the display name of a policy creates that policy |
| Factory.Dispatch | core/scheduler_base.py:7 | the chosen engine's result: none only for Round Robin without a positive quantum, and otherwise the whole outcome its engine's `Schedule` promises (`Fifo.Outcome`, `Sjf.Outcome`, `Srtf.Outcome`, `RoundRobin.Outcome` over the input sorted by arrival) |
| Parser.DigitRun | gui/process_table.py:194 | the scanned run of digits is maximal: all digits, followed by a non-digit or the end |
| Parser.ParsePattern | gui/process_table.py:185-220 | the table's pass over the tokens with a CPU accumulator computes the parse of the text |
| Parser.AbsorbFails | gui/process_table.py:201-218 | the fold over the tokens fails exactly when some token has a single parenthesis |
| Parser.ScanEmpty | gui/process_table.py:194-196 | the scan finds no token exactly when the text holds no digit |
| Parser.ParseNone | gui/process_table.py:191-218 | no plan exactly when the text is empty, holds no digit, or holds a token with a single parenthesis |
| Parser.ParseShape | gui/process_table.py:198-215 | a parsed plan never has two adjacent CPU entries, every CPU entry is positive, and no entry is negative |
| Parser.ParseTotals | gui/process_table.py:202-215 | the plan's CPU time is the sum of the bare numbers, and its BLOCK entries are the parenthesised numbers in order |
| Parser.DocExample | gui/process_table.py:187-188 | the documented line "2, 1, 3, (2), 4, 5" folds to CPU 6, BLOCK 2 and a pending CPU 9 |
| Parser.HalfParenFails | gui/process_table.py:208-218 | one token with a single parenthesis spoils the whole line |
| Parser.ZerosExample | gui/process_table.py:205-215 | zero CPU numbers give an empty plan, not a failure |
| Parser.EntryIsParse | gui/process_table.py:230-234 | the single-number fallback never applies, and the row's burst is the sum of the bare numbers or 0 without a plan |
| Timeline.MergeTimeline | gui/gantt_chart.py:51-61 | the one-pass merge computes the recursive fusion of touching same-label slices |
| Timeline.MergedSize | gui/gantt_chart.py:52-60 | the merge is empty exactly when the timeline is, and never longer |
| Timeline.MergedNoTouchingRepeats | gui/gantt_chart.py:55-60 | after the merge no two neighbours share a label while touching |
| Timeline.MergedFixed | gui/gantt_chart.py:55-60 | a timeline without touching repeats is left as it is |
| Timeline.MergedIdempotent | gui/gantt_chart.py:51-61 | merging twice is merging once |
| Timeline.MergedDuration | gui/gantt_chart.py:57-58 | the total length of the slices is kept |
| Timeline.MergedLabels | gui/gantt_chart.py:55-60 | the merge drops no label and invents none |
| Timeline.MergedEnds | gui/gantt_chart.py:54-60 | the merged timeline starts and ends where the timeline does |
| Export.StripUnmarked | exportacion/exportador_excel.py:83 | removing the I/O suffix leaves a label without it unchanged |
| Export.StripAppendMark | exportacion/exportador_excel.py:110 | a label with the suffix appended strips to the same base as the label |
| Export.BlockLabelBase | exportacion/exportador_excel.py:109-110 | the I/O label of a plain process name ends in the suffix and strips back to the name |
| Export.IndexOf | exportacion/exportador_excel.py:218 | the index found holds the element and no earlier position does |
| Export.DedupProps | exportacion/exportador_excel.py:81-89 | deduplication keeps each element once, drops none and keeps first-occurrence order |
| Export.Bases | exportacion/exportador_excel.py:82-83 | the bases are the timeline labels stripped of the suffix, in timeline order |
| Export.OrderByAppearance | exportacion/exportador_excel.py:76-90 | the row order is the deduplication of the timeline bases followed by the turnaround keys |
| Export.AppearanceOrder | exportacion/exportador_excel.py:76-90 | every base and key appears once; timeline names come first, in order of first appearance |
| Export.GroupIsFilter | exportacion/exportador_excel.py:107-111 | each filed key holds exactly its slices in timeline order, and no key is empty |
| Export.IoIntervals | exportacion/exportador_excel.py:100-112 | the I/O intervals are the suffixed slices filed by base name |
| Export.SortPairsProps | exportacion/exportador_excel.py:166-167 | sorting a process's segments orders them and keeps every one |
| Export.CpuSegments | exportacion/exportador_excel.py:161-167 | the CPU segments are the unsuffixed slices filed by label, each list sorted |
| Export.MergeSegments | exportacion/exportador_excel.py:198-210 | the fusion is a stable sort by start followed by one pass |
| Export.FusePass | exportacion/exportador_excel.py:203-210 | the pass over the sorted segments computes their fusion `Coalesce`, each segment extending the last fused one or starting a new one |
| Export.CoalesceProps | exportacion/exportador_excel.py:203-210 | over segments sorted by start, the fusion is sorted, separated by gaps, and covers exactly the same instants |
| Export.MergeSegmentsProps | exportacion/exportador_excel.py:198-210 | for any segments, the fusion is empty exactly for none, sorted, gapped, and covers exactly the same instants |
| Export.ColumnsCover | exportacion/exportador_excel.py:223-227 | an empty segment paints nothing; otherwise its columns number its length, and column `c` is painted exactly when it covers time `c - 2` |
| Export.PaintedCovers | exportacion/exportador_excel.py:222-233 | a column of a row is painted exactly when one of its segments covers time `c - 2` |
| Export.FilterCovers | exportacion/exportador_excel.py:161-165 | a process's filed segments cover an instant exactly when one of its slices does |
| Export.CpuRowPainted | exportacion/exportador_excel.py:213-233 | a CPU row paints column `c` exactly when a CPU slice of that process covers time `c - 2` |
| Export.IoRowPainted | exportacion/exportador_excel.py:248-262 | an I/O row paints column `c` exactly when a non-empty process list was passed (line 170) and an I/O slice of that process covers time `c - 2` |

## Left out

- Floating-point averages: an average is kept as its exact sum and divisor `max(1, n)`.
- The caller's pattern lists are never mutated because the model works on values.
- Fifo.Dispatch: the bump of the clock to the selected process's arrival (algorithms/fifo.py:72-76) is unreachable, because only arrived processes are ever queued; the model proves the head has arrived instead.
- Fifo.Step: the final `seg_kind == "BLOCK"` branch (algorithms/fifo.py:170-175) is unreachable, since a BLOCK head is handled at dispatch; it is omitted.
- Fifo.Schedule: waiting is not proved non-negative; FIFO does not floor it.
- Sjf.Drained: the defensive `break` at algorithms/sjf.py:88 and 165 is shown to fire only when every process has finished.
- Srtf.Schedule: every process receives all of its plan's CPU time only when no plan has a zero-length BLOCK segment right after another BLOCK segment. Such a pair can leave a process blocked and overdue when the loop's `break` at algorithms/srtf.py:134-136 fires, so in general the contract states only "at most the plan's CPU time" and that each process is finished or overdue (`Srtf.Run`).
- Srtf.PopDone: the arrival scan at algorithms/srtf.py:193 still sees a cursor of 0 for a process whose first CPU segment has just ended, so it queues the process again. When that segment is followed by a final BLOCK, the stale entry is later popped with its plan used up, and algorithms/srtf.py:147-148 completes the process at that clock rather than at the end of the BLOCK. The model keeps this behaviour as written and proves that the invariant survives it; `Srtf.StaleCompletion` exhibits it on one process.
- RoundRobin.Schedule: a missing or non-positive quantum, for which the source raises `ValueError`, gives `None`. The quantum is validated before the empty-input case, as in the source.
- RoundRobin.Schedule: the engine's results are stated over `ByArrival(procs)`, the input sorted stably by arrival. `RoundRobin.ByArrivalProps` proves this is a permutation with the same names.
- RoundRobin.Serve: the defensive skip at algorithms/round_robin.py:77-78 is unreachable, because the ready queue never holds a finished or blocked process; the model asserts this instead of taking the branch.
- Trace.Labelled: a `_BLOCK` slice is shown to be as long as one of its process's BLOCK segments, not that each BLOCK segment gives exactly one slice; the engines' step contracts state each slice they append.
- Trace.Covered: the result's turnaround is bounded below by the end of the process's last CPU interval, not tied to the instant its plan ran out; when completion is recorded is stated by each engine's step contracts (`Fifo.Dispatch`, `Fifo.EndSegment`, `Sjf.Close`, `Srtf.Serve`, `RoundRobin.NextSegment`).
- Parser.ParsePattern: digits are the ASCII digits `0`-`9`; the regular expression's `\d` also matches other Unicode decimal digits, which the model does not cover.
- Export.OrderByAppearance: the turnaround table's key order is a sequence parameter, because a Dafny map has no order.
- Export: the workbook, its styling, fills, colour palette, column widths, time-axis cells, the arrival shading and `wb.save` are foreign library output; only the column arithmetic of a painted segment (`Export.Columns`) is modelled.
- Factory: policies are values of a datatype; the fresh engine instance that `create` returns, and the class objects of the table, are not modelled, since the engines keep no state between calls.
- The chart's drawing, zoom and pan, and all widgets of the process table other than the pattern parser and the burst derivation, are user-interface code and are not part of this model.

## Findings

| source | as written | input that shows it | evidently intended | confidence | as-written member | corrected member |
|---|---|---|---|---|---|---|
| algorithms/round_robin.py:167-174 | for a process without an explicit pattern the metrics block reads the engine's working copy, which the run has used up, so no CPU time is taken off and waiting equals turnaround | process "A", arrival 0, burst 3, no pattern, any positive quantum | waiting is turnaround less the 3 units of CPU time, as for a process with the pattern `[CPU 3]` | not executed | RoundRobin.ScheduleAsWritten, RoundRobin.WaitingAsWrittenOverstates | RoundRobin.Schedule |

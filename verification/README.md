# The SysFlow collector, verified

The SysFlow collector turns a stream of system events into a trace: entity records (headers,
containers, processes, files) and behaviour records (network, file and process flows, process
and file events). Five mutable structures have to stay in step while it does so: the process
table, the file cache, the container cache, the multiset of data flows ordered by export time and
the multiset of processes that have a process flow. This project models the collector's main loop
over these structures, and the MurmurHash3 functions that ship with it, and proves what holds over
whole runs.

`dafny verify dfyconfig.toml` checks everything.

## What is proved

- **Whole runs.** On every lawful stream of inputs, each turn of the main loop does to processes,
  flows, both indices, the deletion queue and the behaviour records exactly what its input asks for:
  the scan of the data flows, the scan of the process flows, deferred deletion, rotation and the
  handler, each as a relation between snapshots (`Chronicle.Chronicled`, `SysFlow.Collect`). Only a
  rotation starts a segment. An event that looks a process up records it with its unwritten
  ancestors, ancestors first, each with its container, state and time, and no other process; a scan
  records only processes it marks, as they are. Lawfulness is a condition on the stream alone;
  `Stream.ProperIsEnough` shows that it prepares the tables for every event.
- **Self-contained segments.** In every run, including its shutdown, every flow and event record
  comes after a record of its process, and of each file it names, in its own segment
  (`SysFlow.SysFlowProcessor.Run`, `SysFlow.Collect`, `Trace.ClosedIffSelfContained`).
- **Conservation.** At every turn, the bytes, operations and thread counts of all handled events
  equal what is written, live, expired unwritten, kept out by the read mode and discarded with a
  process. When turns are at most thirty seconds apart nothing expires unwritten. So over the life of
  a collector, in every read mode, the written counters and those of the flows the mode suppressed,
  which the run determines one by one, are exactly those of the handled events, in each of the seven
  columns: operations and bytes sent and received, threads cloned, exited and failed
  (`Sums.Conserved`, told from the fields of the events alone). Thread counts are written in full in
  every mode, and all counts are when file reads are enabled (`SysFlow.Collect`,
  `Chronicle.HushedInRun`). A gap is safe if and only if it is at most thirty seconds
  (`FlowState.SafeGapIffThirtySeconds`); `SysFlow.LosingRun` is a run that loses.
- **Field by field.** A second account of every handler, both scans, pruning and the flush names the
  fields of events, flows and records themselves; apart from integer conversions and the printing of
  numbers it shares no function with the methods (`Effects.Acted`, `ControlFlows.ProcActed`,
  `Effects.Swept`, `ControlFlows.ProcSwept`, `Effects.FlushedTo`, `Pruning.PrunedTo`). The methods are
  proved to satisfy both accounts.
- **Adjoining records.** Over whole runs, the first record of a flow starts at the event that opened
  it, and every further one at the end of the record before it; so it is for process flows
  (`Spans.RecordsAdjoin`).
- **Agreement.** Tables, heap and both indices hold the same objects, once each, in order of export
  time; a value scan for an object always finds that very object; container counts are exact; file
  counts never fall below the number of live flows on the file.
- **Scans.** A scan that stops at the first entry that is not due does exactly what a scan of all
  entries would do, in the order of the index, and handles each due entry once.
- **Ancestors.** A process that is not written yet is written together with exactly its unwritten
  ancestors, ancestors first: those the walk over the parent tasks comes to, and then those of the
  line of a parent guessed by its pid (`ProcessState.Walked`).
- **Pruning.** Rotation keeps exactly the processes with something active at or below them, whatever
  the iteration order of the hash table; when parents are steady, that is so at every rotation of
  every run.
- **Close, exit and shutdown.** The close of a socket leaves no related flow of any thread. The close
  of a file does so if and only if every flow related to the event is also related to the flow
  stored under the event's key (`FlowState.CloseClearsIff`); since the key is an unseparated
  concatenation it can fail (`FlowState.CloseCanMiss`). An exit ends exactly the flows of the exiting
  thread and those related to them, or all flows of the process (`FlowState.Leaves`). The shutdown
  offers every live data flow and process flow once, cut off, and writes nothing else but entities.
- **Deferred deletion.** A round takes exactly every second entry of the queue, up to the first it
  comes to that is not overdue (`ProcessState.Passes`); an overdue head always goes.
- **MurmurHash3.** For every key and all three functions: different seeds give different hashes, and
  keys of one length that differ in one block only (or in the tail only) never collide. Each function
  has one answer computed step by step (`MurmurAnswers`).

## How it is modelled

| module | models |
|---|---|
| `Types`, `Trace`, `TimeSet` | the values, the trace with its segments, the multisets ordered by time |
| `Ledger`, `Sums` | sums of counters over records, live objects and inputs |
| `Invariants`, `ProcessState`, `FlowState`, `Pruning`, `Shutdown` | the agreements between the tables, as predicates on snapshots, and how each change carries them over |
| `Effects` | what data events, scans and the flush do, field by field |
| `Stream`, `Chronicle`, `Spans` | the input stream with the hypotheses about it, runs as sequences of turns, and the time spans of the records of a run |
| `Caches`, `Processes`, `DataFlows`, `ControlFlows`, `SysFlow` | the classes of the collector, with the fields they update in place |
| `ReadOnlyFiles` | the read modes and the printing of numbers in flow keys |
| `Words`, `Murmur`, `MurmurAnswers` | word arithmetic, the hash functions and known answers |

Network flows and file flows of a process share one table, keyed by a tuple or by a string; flow
objects live in a map from identities to values, which stands for the heap. Iteration over a hash
table takes its keys in an arbitrary order. The trace is an append-only sequence of records; a
header starts a segment. Counters are unbounded integers; ports, addresses, descriptors, thread ids
and results are converted between widths as the source does. `rank` and `tidy` are not part of the
program: they name hypotheses about its events.

The hypotheses are about the input stream:

- The clock is constant during one turn of the loop, positive and never goes backwards
  (`Stream.Clocked`).
- The events are lawful (`Stream.Lawful`), each judged by the inputs before it:
  - Parents of tasks are acyclic, also when a parent is guessed by its pid among the processes the
    stream has brought (`ProcessState.Sane`).
  - No event operates on a flow of a process that may still wait for its deletion, other than to
    close it, or counts a thread of it. Which processes may wait follows from the stream: main
    threads that exited, and the rounds of deletions since (`Stream.MayWait`).
    `Invariants.DropIsSafeIffFlowless` shows that the deletion of a process is safe exactly when it
    has no flows.
  - A file flow key of a process names one file. The key is an unseparated concatenation;
    `FlowState.FlowKeysCollide` gives two files with one key.
  - Only for the exact result of pruning in runs (`tidy`): a process has the parent it always had,
    no task of pid zero is an ancestor, and no missing parent task can be guessed by its pid
    (`Stream.SteadyChain`).

Events that make the collector look up no process, or touch no flow, are not restricted by the
corresponding conditions. No event operates with the flag that marks a cut-off flow. When an
iterator of the deletion queue is advanced past the end of the list, the model lets it stop or come
round to the head. `find` on a multiset is taken to return the first of equal elements. Words of a
hashed key are read least significant byte first.

## Model

| member | source | states |
|---|---|---|
| `SysFlow.Collect` | src/libs/sysflowprocessor.cpp:27-232 | The whole life of a collector on a lawful stream: every input is processed, and every turn, from the empty tables on, is the specified one; then each live data flow and process flow that has something to report leaves one record, with the flag of a cut-off flow, the last time stamp and its own counts; the trace starts with a header and is self-contained in every segment; with turns at most 30 s apart, in each of the seven columns, the counters of the records and of the suppressed flows come to what the handled events do, told from their fields; thread counts are written in full in every mode, all counts are with file reads enabled |
| `SysFlow.SysFlowProcessor.Run` | src/libs/sysflowprocessor.cpp:151-232 | On a lawful stream every input is processed by the specified turn, starting from where the turn before it ended, and the collector ends where the turns lead; all agreements hold throughout, the trace is extended and self-contained, every charge is accounted for, no process flow is discarded and nothing is lost when turns are punctual |
| `SysFlow.SysFlowProcessor.Step` | src/libs/sysflowprocessor.cpp:159-232 | One input: nothing for a filtered one, otherwise scans, deletion, rotation and handler with their exact effects; what the tables hold still stems from the stream, and the books take in exactly the charge |
| `SysFlow.SysFlowProcessor.HandleInput` | src/libs/sysflowprocessor.cpp:191-227 | Events from outside containers are skipped when so configured, all others do exactly what they ask for; a lawful event needs no other hypothesis |
| `SysFlow.SysFlowProcessor.Tick` | src/libs/sysflowprocessor.cpp:185-190 | Both scans, deferred deletion and rotation, in this order and with their exact effects; all agreements are kept and no counter leaves the books; a gap of at most 30 s loses nothing |
| `SysFlow.SysFlowProcessor.CheckForExpiredRecords` | src/libs/sysflowprocessor.cpp:137-149 | Both scans have exactly the effect of full scans, with their records, when a second has passed since the last, and none otherwise; all agreements and counters are kept; with a gap of at most 30 s neither loses any |
| `SysFlow.SysFlowProcessor.ScanAt` | src/libs/sysflowprocessor.cpp:137-149 | Both scans at a new time, with the exact effect of full scans on flows, process flows, both indices and records |
| `SysFlow.SysFlowProcessor.CleanUp` | src/libs/sysflowprocessor.cpp:187-189 | Deferred deletion and then rotation, when due, with their exact effects; all agreements and counters are kept |
| `SysFlow.SysFlowProcessor.CheckForDeletion` | src/libs/processcontext.h:88-112 | Deferred deletion keeps all agreements; when the last round is more than a second old, exactly the entries the passes take leave the queue, with their processes, and no counter goes with them; otherwise nothing changes |
| `SysFlow.SysFlowProcessor.CheckAndRotateFile` | src/libs/sysflowprocessor.cpp:115-135 | Rotates exactly when the file is old enough or the sink asks for it; the new segment is a header, all agreements and counters are kept, files with references stay, and the surviving processes are exactly those that lead to something live |
| `SysFlow.SysFlowProcessor.Rotate` | src/libs/sysflowprocessor.cpp:119-124 | A rotation re-establishes all agreements for a segment in which nothing is declared yet; the processes left are exactly those that lead to something live, the files those with a count and the containers those some process left is in, each to be declared again and otherwise as it was |
| `SysFlow.SysFlowProcessor.ClearTables` | src/libs/sysflowprocessor.cpp:106-113 | After clearing, nothing is marked written; the files left are exactly those with a count, the containers those some process left is in, and nothing else about them has changed; live flows keep their files and processes, and counts are still right |
| `SysFlow.SysFlowProcessor.Handle` | src/libs/sysflowprocessor.cpp:205-227 | A handled event does exactly what it asks for to flows, process flows, queue and records; no process goes and new ones are those looked up; it keeps all agreements, continues the segment and adds exactly its charge to the books |
| `SysFlow.SysFlowProcessor.Stop` | src/libs/sysflowprocessor.cpp:78-89 | Shutdown leaves exactly one record for each live data flow and process flow that has something to report, field by field: the flag of a cut-off flow added, ended at the current time, everything else as in the flow; it leaves no process and no flow, keeps the trace self-contained and, when nothing was lost or discarded, brings the written counters, with those of the suppressed flows, up to everything ever taken in |
| `SysFlow.Start` | src/libs/sysflowprocessor.cpp:27-76 | A new collector, of the given configuration and at the given time, from which the last round of deletions counts, is in order, has one header in its trace, empty tables and owes nothing |
| `SysFlow.NothingDiscarded` | src/libs/processcontext.cpp:569-590 | If no queued process has a process flow, a deletion discards no counter |
| `SysFlow.Rotated` | src/libs/sysflowprocessor.cpp:106-124 | Standing agreements and cleared marks are all a new segment needs |
| `SysFlow.ClearedKeeps` | src/libs/containercontext.cpp:208-221 | Dropping containers and files with no count breaks no agreement |
| `SysFlow.BookIsGrand` | src/libs/processcontext.cpp:515-550 | When nothing was lost or discarded, what the shutdown will write and what the read mode suppressed is everything ever taken in |
| `SysFlow.LosingRun` | src/libs/dataflowprocessor.cpp:95-139 | A byte sent at second 100, a scan at second 129 that finds nothing due and a scan at second 160: the byte is counted as lost and no record of it is left |
| `Stream.ProperIsEnough` | src/libs/sysflowprocessor.cpp:191-227 | When tables and queue stem from the stream, an event that is lawful on the stream meets every precondition of its handler |
| `Stream.ReadyAfter` | src/libs/processcontext.h:88-112 | After a round of deletions the queue is one the stream may have led to |
| `Stream.KeyNamed` | src/libs/fileflowprocessor.cpp:246-252 | The flow stored under the key of a lawful file event is on the file of the event |
| `Stream.DidRecalls` | src/libs/dataflowprocessor.cpp:54-83 | After a data event every cached process, queued process and file flow still stems from the stream |
| `Stream.ProcDidRecalls` | src/libs/controlflowprocessor.cpp:104-156 | The same after a process event; only main-thread exits enter the queue |
| `Chronicle.ChronicleNext` | src/libs/sysflowprocessor.cpp:159-232 | A specified turn from where a run has ended extends the run |
| `Chronicle.TickedIsNothingNew` | src/libs/sysflowprocessor.cpp:187-189 | Scans, deletion and rotation cache no process and open no flow |
| `Chronicle.TickedIsReady` | src/libs/sysflowprocessor.cpp:187-189 | Scans, deletion and rotation leave tables and queue as the stream so far may have made them |
| `Chronicle.HushedInRun` | src/libs/readonly.h:45-66 | Over every run, only flows the read mode suppresses are kept out of the trace, and no thread count with them |
| `Chronicle.HushedColumns` | src/libs/readonly.h:45-66 | With the suppressed flows accounted for, thread counts are exact in every read mode and all counts when reads are enabled |
| `Sums.ChargeIn` | src/libs/sysflowprocessor.cpp:191-227 | What an input adds to the books is, column by column, what the fields of its event say |
| `Sums.ConservedIf` | src/libs/sysflowwriter.h:79-102 | When the books balance, the records and the suppressed flows come to what the inputs do in every column, and the records alone where nothing can be suppressed |
| `Spans.RecordsAdjoin` | src/libs/fileflowprocessor.cpp:404-420 | In every run, once a scan has ended a record of a flow, the flow starts at the time of that scan until the next scan that ends a record of it: consecutive records adjoin |
| `Spans.FirstRecordStarts` | src/libs/networkflowprocessor.cpp:129-146 | In every run, a flow starts at the event that opened it until a scan ends its first record |
| `Spans.ProcRecordsAdjoin` | src/libs/controlflowprocessor.cpp:158-170 | The same adjoining of the records of a process flow |
| `Spans.ScanFields` | src/libs/dataflowprocessor.cpp:110-138 | Every turn of a run that scans sweeps the flows and writes their records as told field by field |
| `Spans.ProcScanFields` | src/libs/controlflowprocessor.cpp:187-208 | The same for the process flows |
| `Trace.ClosedIffSelfContained` | src/libs/sysflowwriter.h:64-118 | The incremental rule kept by every writer call is equivalent to the positional one: every entity a record names is written before it and after the last header before it |
| `Trace.DeclaredMeans` | src/libs/sysflowwriter.h:64-118 | An entity counts as declared exactly when its record stands after the last header |
| `Trace.NoHeaderAdded` | src/libs/sysflowwriter.h:64-118 | The number of segments stays the same exactly when no header is added |
| `Caches.Writer.Write` | src/libs/sysflowwriter.h:64-118 | A record is appended and does to the current segment what its kind says |
| `Caches.Writer.WriteFlow` | src/libs/sysflowwriter.h:79-102 | A data flow without operations leaves no record, any other leaves exactly one |
| `Caches.Writer.WriteProcessFlow` | src/libs/sysflowwriter.h:87-94 | A process flow without operations leaves no record, any other leaves exactly one |
| `Caches.Writer.Reset` | src/libs/sffilewriter.cpp:65-76 | A new file begins with a header: nothing is declared in it, and no behaviour record is lost |
| `Caches.ContainerContext.GetContainer` | src/libs/containercontext.cpp:126-180 | Finds or creates the container of a non-empty id; exactly when a record is due (new, or unwritten or incomplete with something better known) one container record is written and the container is marked written, with the name and image known for it or those of an incomplete one, and otherwise nothing changes; no count changes |
| `Caches.ContainerContext.ExportContainer` | src/libs/containercontext.cpp:100-114 | Writes exactly one record for a cached container that is not written yet, and nothing otherwise |
| `Caches.ContainerContext.Deref` | src/libs/containercontext.cpp:116-124 | Takes one reference of a cached container and changes nothing else; the caller shows that it has one |
| `Caches.ContainerContext.ClearContainers` | src/libs/containercontext.cpp:208-221 | Exactly the containers with a count of zero are dropped, the others are marked unwritten; no count changes |
| `Caches.FileContext.GetFile` | src/libs/filecontext.cpp:61-87 | Afterwards the file is cached, marked written and declared in this segment: a new one in the given state with a count of zero and the container of the event, one from an earlier segment as found again, with its record; nothing changes when it was declared already; no other file changes |
| `Caches.FileContext.ExportFile` | src/libs/filecontext.cpp:89-113 | A cached file is declared in this segment, by one record of it as found again unless it was already; nothing else changes |
| `Caches.FileContext.ClearFiles` | src/libs/filecontext.cpp:115-125 | Exactly the files with a count of zero are dropped, the others are marked unwritten |
| `Processes.ProcessContext.GetProcess` | src/libs/processcontext.cpp:213-353 | The process of an event ends up cached, written and declared; nothing happens when it was already; otherwise exactly the process, its ancestors among the parent tasks up to the first written one, and the unwritten ones of the stored line of the guessed parent are recorded, ancestors first: a new process with the container of its own task, the given state (its ancestors as found again) and the time of the event, a cached one as found again, with its time kept and its container renewed, and those of the guessed line as they are; each of them lists the one it was reached from; everything else about the table is kept |
| `Processes.ProcessContext.CreateProcess` | src/libs/processcontext.cpp:52-139 | A new object gets its parent from the parent task or by pid, no flows, and one reference on its container |
| `Processes.ProcessContext.ReupContainer` | src/libs/processcontext.cpp:180-199 | Moves the process's container reference; container counts stay exact and never go below zero |
| `Processes.ProcessContext.Climb` | src/libs/processcontext.cpp:258-309 | Collects exactly the parent tasks, pid zero excepted, up to the first one that is no task or is written, in descending order; tells whether one was met, and otherwise returns the topmost task |
| `Processes.ProcessContext.Enlist` | src/libs/processcontext.cpp:280-306 | An ancestor joins the batch, cached or new, with its container counted and its child listed |
| `Processes.ProcessContext.GuessAncestors` | src/libs/processcontext.cpp:311-340 | Adds exactly the unwritten processes on the stored line of a cached process with the wanted pid, nothing exactly when there is none; every process of the line lists the one before it |
| `Processes.ProcessContext.Commit` | src/libs/processcontext.cpp:342-350 | The whole batch ends up in the table, marked and written, in reverse order of collection |
| `Processes.ProcessContext.FindByPid` | src/libs/processcontext.cpp:201-211 | A process with that pid when there is one, nothing exactly when there is none |
| `Processes.ProcessContext.ExportProcess` | src/libs/processcontext.cpp:363-381 | A cached process is declared in this segment, by one record of it as it is unless it was already, and nothing else about the table changes; a missing one is reported |
| `Processes.ProcessContext.CountFlows` | src/libs/processcontext.h:71-86 | The sizes of the tables add up to the number of live flows of the kind |
| `Processes.ProcessContext.RemoveProcessFromSet` | src/libs/processcontext.cpp:592-618 | The value scan finds the process itself, always removes one entry and takes its process flow away |
| `Processes.ProcessContext.MarkForDeletion` | src/libs/processcontext.cpp:562-567 | A process without data flows is appended to the queue with the current time |
| `Processes.ProcessContext.DeleteProcess` | src/libs/processcontext.cpp:569-590 | Takes exactly this process out of the table, its parent, its container's count and the process index; a process flow it still has is counted as discarded |
| `Processes.ProcessContext.CheckForDeletion` | src/libs/processcontext.h:88-112 | Terminates; nothing is done within a second of the last round; otherwise the passes over the queue take exactly every second entry, up to the first they come to that is not overdue, and another pass follows only when the last ran past the end; exactly the processes of the entries taken leave the table, their parents forget exactly them, the other processes are as they were, and all agreements hold |
| `Processes.ProcessContext.WriteProcessAndAncestors` | src/libs/processcontext.cpp:476-503 | Terminates; exactly the process and the unwritten ones of all its ancestors in the table are emitted, ancestors first; afterwards the whole line is written |
| `Processes.ProcessContext.ClearProcesses` | src/libs/processcontext.cpp:417-463 | Survivors are exactly the processes from which a line of listed children leads to one with data flows or a process flow, whatever the iteration order, all unwritten, with those of their children that survive and everything else as it was; agreements and process flow counters are kept |
| `Processes.ProcessContext.ClearAllProcesses` | src/libs/processcontext.cpp:515-550 | The behaviour records added are exactly one for each live data flow and process flow that had operations, none for idle ones and no other, each with the flag of a cut-off flow added, ended at the current time and otherwise as the flow; written counters then equal written plus live before; the trace stays self-contained |
| `Processes.ProcessContext.FlushFlow` | src/libs/processcontext.cpp:521-541 | One live flow of a declared process goes from the live flows to the trace |
| `ProcessState.EmittedOrder` | src/libs/processcontext.cpp:343-350 | A batch written backwards has every parent before its child |
| `ProcessState.SettledKeeps` | src/libs/processcontext.cpp:213-353 | Writing a batch of processes breaks no agreement |
| `ProcessState.LookedThen` | src/libs/processcontext.cpp:213-353 | What follows a look-up takes no mark and no listed child away, so its ancestors stay recorded, ancestors first |
| `ProcessState.ToldTrans` | src/libs/processcontext.cpp:363-381 | Two stages that record only processes not written yet, once each and as they are, make one |
| `ProcessState.KinAdopt` | src/libs/processcontext.cpp:305-306 | Listing a child under the parent it names keeps all listed children under their parents |
| `ProcessState.OrphanKin` | src/libs/processcontext.cpp:570-577 | Only its parent can list a process, so a deletion leaves no dangling child |
| `ProcessState.DrainStep` | src/libs/processcontext.h:95-107 | One deletion from the queue keeps the account of what left the queue and the table |
| `ProcessState.HeadIsTaken` | src/libs/processcontext.h:95-107 | An overdue head of the queue always goes |
| `ProcessState.PassAgain` | src/libs/processcontext.h:95-107 | A pass that ran past the end of the list, followed by another, is one round |
| `Pruning.SweepIsPruned` | src/libs/processcontext.cpp:417-463 | The two passes compute the exact fixpoint: processes needed by something active at or below them, with their needed children |
| `Pruning.TellParent` | src/libs/processcontext.cpp:425-442 | Taking an idle leaf from its parent keeps the account of the pass |
| `Pruning.EraseLeaf` | src/libs/processcontext.cpp:443-448 | Erasing an idle leaf nobody lists keeps the account of the pass |
| `Pruning.PrunedMeans` | src/libs/processcontext.cpp:417-463 | The fixpoint keeps exactly the processes from which a line of listed children leads to one with data flows or a process flow |
| `Invariants.DropIsSafeIffFlowless` | src/libs/processcontext.cpp:569-590 | Dropping a process keeps every live flow in a table if and only if the process has no flows |
| `Invariants.NamedIsCached` | src/libs/containercontext.cpp:208-221 | With exact counts, a container named by a cached process is cached with a positive count, so rotation keeps it |
| `Invariants.ContainerRefsMove` | src/libs/processcontext.cpp:180-199 | Moving a process from one container to another keeps all counts exact |
| `Invariants.FileRefsDelete` | src/libs/fileflowprocessor.cpp:272-320 | A deleted file flow can always give back its reference, and whether it does or not counts stay safe |
| `Invariants.FileRefsClear` | src/libs/filecontext.cpp:115-125 | Rotation keeps every file a live flow names |
| `Invariants.PfIndexedErase` | src/libs/controlflowprocessor.cpp:188-204 | Erasing an entry of the process index together with its process flow keeps them in step |
| `Invariants.KindsAreAll` | src/libs/dataflowprocessor.h:44-45 | The index has as many entries as there are network flows and file flows together |
| `Shutdown.OffloadFlow` | src/libs/processcontext.cpp:521-541 | Flushing a flow adds its truncated record, unless it is idle, and keeps the books |
| `Shutdown.OffloadProcFlow` | src/libs/processcontext.cpp:541-549 | Flushing a process flow adds its truncated record, unless it is idle, and keeps the books |
| `Shutdown.OffloadEnd` | src/libs/processcontext.cpp:515-550 | When all tables are empty, the behaviour records added are one truncated record for each data flow and process flow that had operations, and none else |
| `Effects.FlushRecords` | src/libs/processcontext.cpp:515-550 | The records of the flush are one for each data flow and process flow with something to report, cut off at the given time |
| `DataFlows.DataFlowProcessor.HandleDataEvent` | src/libs/dataflowprocessor.cpp:54-83 | Does to the flows, their index and the behaviour records exactly what the event asks for, field by field: an operation on a socket or file counts a send or a receive with its bytes in the flow under its key, opening it with the fields of the event if need be, and nothing else; a close ends that flow at the time of the event, after cutting off the flows of other threads akin to it, one record each; a file event, and in consumer mode an open, leaves its one record; records exactly its process with the unwritten ancestors, when it looks one up; adds exactly its bytes and operation to the books; a close clears the flows related to the event if and only if the flow under the key reaches them; keeps all agreements and the process flows |
| `DataFlows.DataFlowProcessor.HandleNetFlowEvent` | src/libs/networkflowprocessor.cpp:168-232 | Only IPv4 sockets are operated on, under the key of tuple, thread and descriptor; after a close, no flow on the same tuple and descriptor is left in the process, in any thread |
| `DataFlows.DataFlowProcessor.HandleFileFlowEvent` | src/libs/fileflowprocessor.cpp:188-270 | Does exactly the deed of the event: only the kept kinds of descriptors are operated on; in consumer mode only opens are reported, at once; after a close no flow on the file and descriptor of the event is left in any thread, if and only if every such flow is related to the flow under the key; tables of other processes do not change |
| `DataFlows.DataFlowProcessor.ProcessFlow` | src/libs/fileflowprocessor.cpp:121-186 | Every operation but a close puts exactly the updated flow under its key, opening it first if need be, and writes nothing; a close ends the flow and its relatives, and clears those of the event exactly when the flow under the key reaches them; no other flow changes; the charge is exactly the operation's |
| `FlowState.CloseClearsIff` | src/libs/fileflowprocessor.cpp:121-186 | After a close no flow related to the event is left, if and only if each of them was related to the flow stored under the key of the event |
| `FlowState.NetReaches` | src/libs/networkflowprocessor.cpp:241-267 | A network key determines the relatives, so the close of a socket always clears |
| `FlowState.CloseCanMiss` | src/libs/fileflowprocessor.cpp:246-252 | One file, open in threads 1 and 5; a close by thread 12 has the key of the flow of thread 1 and does not reach the flow of thread 5 on its own descriptor |
| `Effects.DidActs` | src/libs/dataflowprocessor.cpp:54-83 | The specified deed of a data event is, field by field, what the event asks for |
| `Effects.OperatesIff` | src/libs/fileflowprocessor.cpp:188-270 | An event operates on a flow if and only if it goes through an IPv4 socket or a kept kind of descriptor |
| `Effects.UpdatedTookIn` | src/libs/networkflowprocessor.cpp:110-127 | A send counts one operation and its positive result as bytes, a receive likewise, any other operation neither; the flag and the time are noted, and nothing else changes |
| `Effects.KeyOfBegun` | src/libs/networkflowprocessor.cpp:59-108 | The key of a new flow is that of thread, descriptor and tuple, or path, container, thread and descriptor |
| `Effects.CutRecords` | src/libs/fileflowprocessor.cpp:69-97 | Flows that are cut off leave one record for each that has something to report and is not kept out: the flag of a cut-off flow added, ended at the given time, all else as in the flow |
| `Effects.KeptOutIff` | src/libs/readonly.h:45-66 | A flow is kept out exactly when it is a file flow opened read-only or only read from and, in the selective mode, below one of the eight system directories |
| `DataFlows.DataFlowProcessor.OpenFlow` | src/libs/networkflowprocessor.cpp:129-146 | A new flow enters its table, the index and the heap, and the count of its file, and of no other, grows by one |
| `DataFlows.DataFlowProcessor.CloseNewFlow` | src/libs/networkflowprocessor.cpp:129-146 | A close without a flow ends exactly the related flows of other threads, openers first, and is then offered itself |
| `DataFlows.DataFlowProcessor.CloseFlow` | src/libs/networkflowprocessor.cpp:156-166 | Exactly the related flows of other threads are offered, cut off, openers first; then the flow itself; exactly these leave table and heap |
| `FlowState.PickedShuts` | src/libs/fileflowprocessor.cpp:69-97 | Picking the related entries and then the flow itself is exactly what a close is specified to do |
| `FlowState.ShutUpdated` | src/libs/fileflowprocessor.cpp:177-186 | Updating the flow that is being closed changes nothing for its relatives |
| `DataFlows.DataFlowProcessor.RemoveAndWriteRelatedFlows` | src/libs/networkflowprocessor.cpp:241-267 | Exactly the related flows of other threads leave table, index and heap and are offered truncated, those that saw the descriptor opened first |
| `DataFlows.DataFlowProcessor.RemoveFlowFromSet` | src/libs/networkflowprocessor.cpp:298-327 | The value scan always finds and erases the very object it is given |
| `DataFlows.DataFlowProcessor.RemoveAndWriteFlow` | src/libs/fileflowprocessor.cpp:167-175 | A flow is offered, and leaves its table, the index and the heap; the count of its file, and of no other, falls by one; the books are kept |
| `DataFlows.DataFlowProcessor.WriteConsumerRecord` | src/libs/fileflowprocessor.cpp:144-165 | In consumer mode an open is offered at once as an ended flow, any other operation leaves nothing |
| `DataFlows.DataFlowProcessor.RemoveAndWriteDFFromProc` | src/libs/dataflowprocessor.cpp:85-88 | The flows that go are exactly those of the exiting thread and those related to one of them, or all of the process; each is offered once, cut off; no other flow changed and none of the thread is left |
| `FlowState.DepartedTrans` | src/libs/networkflowprocessor.cpp:269-296 | What went in two stages went, with its records, in one |
| `FlowState.TookAll` | src/libs/networkflowprocessor.cpp:269-296 | Once no flow of the exiting thread is left, exactly its flows and those related to them before the exit are gone |
| `DataFlows.DataFlowProcessor.CheckForExpiredRecords` | src/libs/dataflowprocessor.cpp:95-139 | The early-stopping scan does exactly what a full scan does, field by field: flows not due stay as they are, those due without an operation for 60 s go, and the others start afresh at the current time with no operation and no counter, after one record that ends then, in index order, for each that has something to report; returns the number due; records only processes it marks, as they are; keeps the books and, at most 30 s after the last scan, loses nothing |
| `DataFlows.DataFlowProcessor.ExportFlow` | src/libs/fileflowprocessor.cpp:404-420 | A due flow is declared, offered and started afresh, last in the index |
| `DataFlows.DataFlowProcessor.ExpireFlow` | src/libs/fileflowprocessor.cpp:382-402 | An expired flow leaves table, index and heap; the count of its file, and of no other, falls by one; its counters are booked as lost |
| `DataFlows.DataFlowProcessor.WriteFileEvent` | src/libs/fileeventprocessor.cpp:114-151 | Exactly one event record is added, after its process and file are declared; a file not known before is created by the event |
| `DataFlows.DataFlowProcessor.WriteLinkEvent` | src/libs/fileeventprocessor.cpp:49-112 | Exactly one event record is added, after its process and both files are declared; the first file is found, the second created by the event when it is new |
| `DataFlows.DataFlowProcessor.HandleFileEvent` | src/libs/fileeventprocessor.cpp:37-47 | A file event leaves exactly its one record, on one file or on two, and moves no flow |
| `DataFlows.DataFlowProcessor.GetSizes` | src/libs/dataflowprocessor.h:44-45 | The two flow counts add up to the size of the index |
| `DataFlows.DataFlowProcessor.WriteFlow` | src/libs/readonly.h:45-66 | A flow is offered unless the read mode keeps it out, and then it is noted as suppressed |
| `FlowState.ExpiryLosesNothing` | src/libs/dataflowprocessor.cpp:110-123 | With scans at most 30 s apart a flow that expires has no operation and no counter |
| `FlowState.SafeGapIffThirtySeconds` | src/libs/dataflowprocessor.cpp:110-123 | A gap between scans is safe, whatever flows there are, if and only if it is at most 30 s |
| `FlowState.LongGapLoses` | src/libs/dataflowprocessor.cpp:110-123 | For every longer gap there is a flow with a byte sent, not due at the last scan, that is discarded |
| `FlowState.EarlyStopIsFull` | src/libs/dataflowprocessor.cpp:110-138 | When the head is not due, exactly the due flows have been handled, once each |
| `FlowState.ScanEnd` | src/libs/dataflowprocessor.cpp:110-138 | The heap and the records after the scan are those of a full scan |
| `Effects.ScanSweeps` | src/libs/fileflowprocessor.cpp:382-420 | A full scan leaves flows that are not due as they are, drops those due without an operation for 60 s and starts the others afresh |
| `Effects.ScanRecords` | src/libs/dataflowprocessor.cpp:110-138 | The records of a scan are one for each exported flow with something to report, in the order of the index, each ended at the current time |
| `FlowState.ProgressNext` | src/libs/dataflowprocessor.cpp:110-138 | Expiring or exporting the head of the index, as its age says, is the next step of a full scan |
| `FlowState.ReindexedNew` | src/libs/networkflowprocessor.cpp:129-146 | A new flow enters the index by its time, behind those of the same time |
| `FlowState.StayingIs` | src/libs/dataflowprocessor.cpp:110-138 | When exactly the first entries are due, a scan moves them, renewed, behind the others |
| `FlowState.KeyRecovery` | src/libs/networkflowprocessor.cpp:59-108 | The key rebuilt from a network flow record, through all width conversions, is the key it is stored under |
| `Types.Conversions` | src/libs/networkflowprocessor.cpp:59-108 | Each integer conversion yields the number in the range of its type that differs by a multiple of its size |
| `FlowState.SameFlowSameObject` | src/libs/datatypes.h:65-105 | Two live flow objects with equal values are one object |
| `FlowState.PickNext` | src/libs/fileflowprocessor.cpp:69-97 | Visiting one table entry keeps the account of which related flows were picked, openers first |
| `FlowState.FlowKeysCollide` | src/libs/fileflowprocessor.cpp:246-252 | Two different files with one flow key |
| `FlowState.KeyTestIsPathTest` | src/libs/readonly.h:45-66 | The prefix test on the flow key is the test on the path, for every path, if and only if the container id does not complete a listed prefix; so it is for ids without a slash |
| `FlowState.KeyTestDiffers` | src/libs/readonly.h:45-66 | For every container id that completes a listed prefix there is a path, not listed itself, whose flow key is |
| `FlowState.TotalOffer` | src/libs/sysflowwriter.h:79-102 | Offering and deleting a flow keeps the books: what the writer drops has no counters |
| `FlowState.TotalCharge` | src/libs/networkflowprocessor.cpp:110-127 | An operation adds exactly its charge to the books |
| `Ledger.SumTakeOut` | src/libs/processcontext.h:71-86 | A sum over a table does not depend on the order of iteration |
| `Ledger.OfferBalances` | src/libs/sysflowwriter.h:79-102 | An offered flow's counters move from the live flows to the trace |
| `Ledger.OfferProcBalances` | src/libs/sysflowwriter.h:87-94 | The same for a process flow |
| `TimeSet.LowerBound` | src/libs/datatypes.h:180-184 | Everything before the position is earlier, the position itself is not |
| `TimeSet.UpperBound` | src/libs/datatypes.h:180-184 | Everything before the position is not later, the position itself is |
| `TimeSet.InsertKeeps` | src/libs/datatypes.h:180-184 | Insertion keeps the order and adds one entry |
| `TimeSet.EraseKeeps` | src/libs/datatypes.h:180-184 | Erasure keeps the order and takes out that entry only |
| `TimeSet.EraseIsWithout` | src/libs/networkflowprocessor.cpp:298-327 | Erasing an entry at its position takes out that entry and keeps the order of the others |
| `TimeSet.SizeIsCount` | src/libs/datatypes.h:180-184 | The size of the multiset is the number of its elements |
| `ControlFlows.ControlFlowProcessor.HandleProcEvent` | src/libs/controlflowprocessor.cpp:104-156 | Field by field: the clone of a process (0 in the main thread, or positive without the thread flag), exec, setuid, and every clone without process flows, leave exactly the record of the event and change no flow; with process flows any other clone adds to the threads cloned when it returns 0 and to the failures when it returns -1, and the exit of another thread to the exits, without a record; any other exit writes exactly the last record of the process flow, those of the data flows that end with it, cut off, and its own, in this order, and queues the process exactly when its main thread exits; no process goes and no other process flow changes; adds exactly the event's thread counts |
| `ControlFlows.ControlFlowProcessor.CountThread` | src/libs/controlflowprocessor.cpp:46-96 | The process flow of the process, new or live, has taken in the operation; no process goes, no other process flow changes and nothing is written but entities |
| `ControlFlows.ControlFlowProcessor.RemoveAndWriteProcessFlow` | src/libs/controlflowprocessor.cpp:98-102 | The process flow is written for the last time and leaves process and index |
| `ControlFlows.ControlFlowProcessor.ExportProcessFlow` | src/libs/controlflowprocessor.cpp:158-170 | The process is declared, its flow offered and started afresh; counters are kept |
| `ControlFlows.ControlFlowProcessor.CheckForExpiredRecords` | src/libs/controlflowprocessor.cpp:176-209 | Each process flow ends as a full scan would leave it, field by field; the due ones are handled once each, in the order of the index, with one record for each that has something to report and does not expire; records only processes it marks, as they are; and at most 30 s after the last scan nothing is lost |
| `ControlFlows.ControlFlowProcessor.WriteCloneEvent` | src/libs/processeventprocessor.cpp:39-52 | The event record comes last, after its process |
| `ControlFlows.ControlFlowProcessor.WriteUpdateEvent` | src/libs/processeventprocessor.cpp:54-74 | Exec and setuid: a process that was cached is written again as modified, directly before the event |
| `ControlFlows.ControlFlowProcessor.WriteExitEvent` | src/libs/processeventprocessor.cpp:76-98 | Exactly the flows of the exiting thread and those related to them, or all of the process, go, each once; the records added are theirs, one each, cut off, and then the event; the index keeps its order; a process is queued exactly when its main thread exits |
| `ControlFlows.ControlFlowProcessor.HandleExit` | src/libs/controlflowprocessor.cpp:111-131 | The records added are the last one of the process flow, exactly one for each data flow that ends with the thread or process, cut off, and the event; exactly these flows go and the tables hold exactly what is left; after a main thread's exit the process has no flow of any kind and waits for deletion; no process goes and no other process flow changes |
| `ControlFlows.AfterExit` | src/libs/processeventprocessor.cpp:76-98 | The end of the process flow, the departure of exactly the data flows that end with the thread, each once, and the event add up to a complete exit that leaves the tables in step |
| `ControlFlows.ProcDidActs` | src/libs/controlflowprocessor.cpp:104-156 | The specified effect of a process event is, field by field, what the event asks for |
| `ControlFlows.CountsOne` | src/libs/controlflowprocessor.cpp:46-96 | A clone that returns 0 is counted as a thread, one that returns -1 as a failure, an exit as an exit, and nothing else about the process flow changes but its flags and time |
| `ControlFlows.LeavesMeans` | src/libs/networkflowprocessor.cpp:269-296 | A flow ends with a thread exactly when it belongs to it or is on the socket or file and descriptor of one of its flows, in another thread |
| `ControlFlows.ProcScanRecords` | src/libs/controlflowprocessor.cpp:158-170 | The records of a scan are one for each process flow with something to report that is due and does not expire, ended at the current time |
| `ControlFlows.PfScanEnds` | src/libs/controlflowprocessor.cpp:187-208 | When the head is not due, no process flow is: the scan is complete and everything is fresh |
| `ControlFlows.PfNext` | src/libs/controlflowprocessor.cpp:187-208 | A due process has not been handled before, and handling it is one step of the scan |
| `ControlFlows.DueOrderNext` | src/libs/controlflowprocessor.cpp:187-208 | Handling the head of the index, which may put it back last, leaves the order of the other due processes |
| `ControlFlows.PfSweepNext` | src/libs/controlflowprocessor.cpp:187-208 | The process index during a scan is what is left of the old one, and then the renewed entries in the order they were handled |
| `ControlFlows.PfUntouched` | src/libs/controlflowprocessor.cpp:188-195 | With scans at most 30 s apart an expiring process flow has seen no operation since its last export |
| `ControlFlows.PfReindexed` | src/libs/controlflowprocessor.cpp:196-201 | Erasing, renewing and inserting again keeps the process index in step |
| `ReadOnlyFiles.PrefixMatch` | src/libs/readonly.h:32-43 | True exactly for prefixes |
| `ReadOnlyFiles.IsSuppressed` | src/libs/readonly.h:45-66 | The flag is set exactly for the flows the read mode keeps out |
| `ReadOnlyFiles.PrintInt` | src/libs/utils.h:108-125 | The buffer ends with the decimal digits of the number, nothing at all for zero |
| `ReadOnlyFiles.ItoaReads` | src/libs/utils.h:108-125 | A printed number can be read back: decimal digits, after a sign exactly for negative numbers, and nothing exactly for zero |
| `ReadOnlyFiles.PrefixesApart` | src/libs/readonly.h:28-30 | No listed prefix is the beginning of another |
| `Murmur.MurmurHash3_x86_32` | src/libs/MurmurHash3.cpp:84-138 | The loop over blocks, the tail and the finalisation compute the fold of the 32-bit scheme over the key |
| `Murmur.MurmurHash3_x86_128` | src/libs/MurmurHash3.cpp:142-298 | The same for the 128-bit scheme on 32-bit words |
| `Murmur.MurmurHash3_x64_128` | src/libs/MurmurHash3.cpp:302-408 | The same for the 128-bit scheme on 64-bit words |
| `Murmur.SeedsNeverCollide` | src/libs/MurmurHash3.cpp:84-408 | For every key, different seeds give different hashes, for all three functions |
| `Murmur.KeysNeverCollide` | src/libs/MurmurHash3.cpp:84-408 | For every seed and length, keys that differ in one block only, or in the tail only, have different hashes, for all three functions |
| `Murmur.NeverMerges` | src/libs/MurmurHash3.cpp:98-137 | Whatever follows in the key, different states stay different |
| `Murmur.OneBlockNeverCollides` | src/libs/MurmurHash3.cpp:98-137 | A difference confined to one block survives to the end, for every lossless scheme |
| `Murmur.Lossless_x86_32` | src/libs/MurmurHash3.cpp:98-137 | Block, tail and finalisation permute the state and are injective in their bytes |
| `Murmur.Lossless_x86_128` | src/libs/MurmurHash3.cpp:162-297 | The same for four 32-bit words |
| `Murmur.Lossless_x64_128` | src/libs/MurmurHash3.cpp:318-407 | The same for two 64-bit words |
| `Murmur.Mix_x86_128_Facts` | src/libs/MurmurHash3.cpp:170-212 | A block step can be undone word by word, the last first |
| `MurmurAnswers.KnownAnswer_x86_32` | src/libs/MurmurHash3.cpp:84-138 | The hash of a key of seven bytes: a block and the longest tail |
| `MurmurAnswers.KnownAnswer_x86_128` | src/libs/MurmurHash3.cpp:142-298 | The hash of a key of 31 bytes: a block and the longest tail |
| `MurmurAnswers.KnownAnswer_x64_128` | src/libs/MurmurHash3.cpp:302-408 | The hash of the same key by the function for 64-bit words |
| `Words.UndoFmix32` | src/libs/MurmurHash3.cpp:60-68 | The 32-bit finalisation mix has an inverse |
| `Words.UndoFmix64` | src/libs/MurmurHash3.cpp:72-80 | The 64-bit finalisation mix has an inverse |
| `Words.RotationsAreShifts32` | src/libs/MurmurHash3.cpp:34-36 | The rotations used are the pairs of shifts they are written as |
| `Words.RotationsAreShifts64` | src/libs/MurmurHash3.cpp:38-40 | The rotations used are the pairs of shifts they are written as |
| `Words.ScrambleInjective32` | src/libs/MurmurHash3.cpp:103-105 | A key word is not lost when it is scrambled |

## Left out

- The event source, drivers, configuration and option parsing: an event is a value with its thread, ids, descriptor, result and time.
- Avro encoding, files and sockets: the writer is a sequence of records; attributes of processes, files and containers that decide nothing (executables, arguments, users, terminal, file types) are not in the records.
- Kubernetes pods and events: pods are never created in this version.
- Path canonicalisation and SHA1: a file id stands for its key, and equal ids mean equal keys.
- Hash tables as data structures, and the hash functions they use: tables are maps with an arbitrary order of iteration.
- The width of counters and reference counts: the sums are over unbounded integers.
- `children` as a complete index: the walk stops at the first written ancestor before it lists the child, so a listed child is a child but not conversely.
- Container records at shutdown: the source deletes the container cache before it flushes the processes; the model flushes with the cache still there.
- Container and file records turn by turn: which are written, and what they say, is stated for each look-up, export and rotation; of whole runs it is stated that every record finds what it names declared.
- A container record in front of every process record: the source does not write one in every case.
- `writeSetUIDEvent`'s argument and other event arguments.
- Statistics, logging and look-ups by other programs.
- ReadOnlyFiles.PrintInt: does not model the smallest 32-bit number, whose negation overflows in the source, nor bases other than ten.
- Murmur.MurmurHash3_x86_32: does not model the fall-through switch of the tail case by case; the word it collects is the little-endian word of the remaining bytes, and the same holds for the other two functions.
- Processes.ProcessContext.DeleteProcess: does not model the deletion of a process that still has data flows, which would leave them without a table; `Invariants.DropIsSafeIffFlowless` gives the exact condition, and no lawful run comes to it.

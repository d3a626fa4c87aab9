# Verified model of the qc library

The repository is a C++ library with a lock-free queue, a work-stealing scheduler of coroutines, log layouts, and a
registry of configuration variables that YAML trees are loaded into. This project models the logic of these parts in
Dafny and proves what they promise: over every interleaving of any number of threads for the concurrent parts, and
over every input for the sequential ones.

`dafny verify dfyconfig.toml` checks the whole project.

## How the parts are modelled

**The queue** (`QueueSpec`, `QueueMachine`, `QueueInvariant`, `QueueRuns`, `QueueTheorems`, `LockFreeQueue`). A
transition system in which every load, store and compare-and-swap is one step of some thread (`Exec`), with any number
of threads, each with its program counter and registers. Beside the memory a history is recorded; the instructions do
not read it. The final statements do not rely on it either: a history is linearizable if an order of its operations
exists that is legal for a sequential queue and respects real time. The class `LockFreeQueue` has the retry loops of
the source; between any two of its shared accesses a schedule lets the other threads take any finite number of steps,
and each method is proved to perform the run of the transition system that its own instructions and these turns make.

**The scheduler and its coroutines** (`Sums`, `SchedulerMachine`, `SchedulerInvariant`, `SchedulerTheorems`,
`SchedulerPool`, `SchedulerDrain`, `Scheduler`, `Coroutine`). A transition system of workers, outside threads that
submit tasks, and the controller. Queues are atomic sequences, which the linearizability of the queue justifies, but
`empty()` and `dequeue()` stay two steps. A callback is a number of pauses and an ending. The class `Scheduler` has the
operations and the two loops of `run`, again under a schedule of the other threads' moves; after the schedule the worker
is alone. A worker's past keeps its own moves, so that a contract can say which requests it submitted and which slices
it began. The class `Coroutine` has the statuses and the pointer to the current coroutine.

**Log layouts** (`LogPattern`, `LogConcat`, `LogLayout`). `ScanText` and `ScanDirective` say what the scanner reads; the
class `Layout` has its loops. `TextFirst` says, without the scanner, which token lists a pattern can have.

**Configuration** (`ConfigNodes`, `ConfigTree`, `ConfigRestore`, `Config`, `LogConfig`). YAML trees and typed values,
the conversions with their loops, the flattening of a tree to dotted names, the registry, and the listener of the
variable `logs`. `Encodes` relates a value to every node that `encode` can make of it, whatever the order in which a
hashed container is visited, and `Denotes` says which value a node stands for, without the decoder. `LogConfig` compares
the listener's difference with a complete rebuild, and `AsConfigured` says what a logger owes its configuration.

## Assumptions

- Atomic operations are sequentially consistent. A compare-and-swap may fail spuriously, except in
  `QueueTheorems.LoopsBoundedByCalls`.
- A queue node's identity is never reused and a deleted node stays readable: line 99 of
  include/qc/thread/lockfreequeue.h deletes a node that another thread may still hold, and nothing in the source
  prevents that.
- One controller calls `start` and `stop`. A submitted task has a non-empty callback, or a coroutine of its own made
  from one. Coroutines do not resume each other.
- A callback yields finitely often and then returns or throws a `std::exception`; `Coroutine.ReusableIffKnownEnd` says
  what any other exception does.
- The idle wait may end at any time.
- Variable values are text, 32-bit integers in decimal notation, and containers of these. Listeners do not throw.
- Building an appender and formatting a date are pure functions; which files can be created is a fixed predicate.

## Where the code and its comments differ

- The table of directives in src/log/layout.cpp:178-198 gives `%t` as the thread id, `%T` as a tab and `%F` as the
  coroutine id. The code makes `%t` a tab, `%T` the thread id, `%C` the coroutine id and `%N` the thread name. The model
  follows the code.
- Where a `{` is not closed, src/log/layout.cpp:253 reads at or behind the end of the pattern. The model treats every
  unclosed brace as the error that the line is there to report.

## What turned out not to hold, and when it does

- The drain does not always empty the queues: a submission that passed its check before `stop` may be enqueued after
  the last worker has left (`SchedulerTheorems.LateTaskIsStranded`). At the moment of `stop`, every drain from there on
  is sure to leave the queues empty exactly when no submission from outside is between its check and its enqueue, or a
  worker has dereferenced null, so that `stop` never returns (`SchedulerDrain.StopDrainsIff`).
- `getIdleCoroutine` can dereference null. This happens exactly when there are at least two workers
  (`SchedulerPool.NullCoroutineNeedsTwoWorkers`).
- A coroutine whose callback throws something other than a `std::exception` can never be resumed, reset or destroyed
  again; every other one can be reused (`Coroutine.ReusableIffKnownEnd`).
- A decoded encoding is the value again exactly when none of its containers is empty (`ConfigNodes.RoundTripIffFull`).
- A variable is not always restored by an earlier export, even if its value had no empty container: the subtree of
  another variable may write it (`ConfigRestore.ExtendedNameIsLost` is an instance). It is always restored exactly when
  no other variable has an encoding whose flattened subtree gives it another value
  (`ConfigRestore.RestoredIffUndisturbed`); this is so whenever no name extends another by a dot
  (`ConfigRestore.ExportThenLoad`).
- The scan of two patterns, one behind the other, is not always their scans side by side: it is exactly when the first
  does not end in a bare directive with a brace behind it (`LogConcat.ScansSideBySide`). Otherwise the directive takes
  the braces for its parameter (`LogLayout.BraceIsTaken`), or the brace is not closed (`LogLayout.BraceIsOpen`).

## Model

| member | source | states |
|---|---|---|
| QueueTheorems.Linearizable | include/qc/thread/lockfreequeue.h:28-109 | In every reachable state the operations that have returned, with some of the pending ones, have an order in which a sequential FIFO queue gives the same answers and in which an operation that returned before another was called comes first |
| QueueTheorems.AnswersAtAMoment | include/qc/thread/lockfreequeue.h:103-109 | Whatever an operation answered, `empty()` included, was the right answer at a moment between its call and its return, although `empty()` never checks its loads again |
| QueueTheorems.ChangesOnlyAtExchanges | include/qc/thread/lockfreequeue.h:40-44 | The contents change in two places only: the exchange of a `next` appends the enqueuer's value, the exchange of head removes the first value; helping changes nothing |
| QueueTheorems.NeverReadsNull | include/qc/thread/lockfreequeue.h:84-85 | The `next` that a dequeuer reads its value through is never null |
| QueueTheorems.QueueShape | include/qc/thread/lockfreequeue.h:33-60 | In every reachable state the nodes form one list without a cycle, head is not after tail, and tail is the last node or the one before it; the contents are the data behind head, in order |
| QueueTheorems.PointersMoveForward | include/qc/thread/lockfreequeue.h:57-60 | No step moves head or tail other than forward by one link |
| QueueTheorems.LoopsBounded | include/qc/thread/lockfreequeue.h:69-96 | An operation enters its loop at most once more than exchanges succeed after its call, its own helping included, and its own spurious failures |
| QueueTheorems.ExchangesBounded | include/qc/thread/lockfreequeue.h:33-60 | The successful exchanges of a run are at most twice its enqueues plus its dequeues |
| QueueTheorems.LoopsBoundedByCalls | include/qc/thread/lockfreequeue.h:33-96 | Without spurious failures an operation enters its loop at most once more than twice the enqueues plus the dequeues of the whole run |
| QueueTheorems.DeletedBeforeHead | include/qc/thread/lockfreequeue.h:88-100 | In every reachable state the deleted nodes are distinct and lie strictly before head |
| QueueTheorems.EveryNodeOnce | include/qc/thread/lockfreequeue.h:97-100 | When no operation is running, the deleted nodes and those still in the list are every node ever allocated, each once: one per enqueue and the dummy |
| LockFreeQueue.LockFreeQueue.constructor | include/qc/thread/lockfreequeue.h:15-19 | A new queue is empty and in the initial state of the transition system |
| LockFreeQueue.LockFreeQueue.TryLink | include/qc/thread/lockfreequeue.h:34-53 | One iteration of `enqueue` performs a run of the transition system; alone, it links the node and so appends the value, or brings tail closer to the last node |
| LockFreeQueue.LockFreeQueue.Enqueue | include/qc/thread/lockfreequeue.h:28-61 | `enqueue` ends under every finite schedule, performs the run that the schedule and its instructions make, is recorded as answered, and alone appends its value |
| LockFreeQueue.LockFreeQueue.TryTake | include/qc/thread/lockfreequeue.h:70-95 | One iteration of `dequeue`: alone, it finds the queue empty, takes the first value, or brings tail closer to the last node |
| LockFreeQueue.LockFreeQueue.Dequeue | include/qc/thread/lockfreequeue.h:63-101 | `dequeue` ends under every finite schedule, performs the run that the schedule and its instructions make, is recorded with the value it returns, and alone takes the first value or returns null on an empty queue |
| LockFreeQueue.LockFreeQueue.Empty | include/qc/thread/lockfreequeue.h:103-109 | `empty` performs the run of its four instructions among the turns of the schedule and is recorded with its answer; alone, it changes nothing and says whether the queue is empty |
| LockFreeQueue.LockFreeQueue.Destroy | include/qc/thread/lockfreequeue.h:21-26 | At the end every node ever allocated has been deleted exactly once, and there is one per enqueue and the dummy |
| SchedulerTheorems.ExclusiveOwner | src/scheduler/scheduler.cpp:122-138 | In every reachable state a coroutine is idle in the pool, or in one entry of one queue, or held by one worker, with the status that belongs there; so two workers never resume it at once |
| SchedulerTheorems.RunningIsCurrent | src/coroutine/coroutine.cpp:59-79 | A coroutine has the status `RUNN` exactly while it is the current coroutine of some worker |
| SchedulerTheorems.GuardsHold | src/coroutine/coroutine.cpp:60-84 | The status assertions of `resume`, `yield` and `reset` never fail in the scheduler |
| SchedulerTheorems.Conservation | src/scheduler/scheduler.cpp:56-67 | An accepted task is in exactly one queue entry, or held by exactly one worker, or finished, and nothing else is queued or held |
| SchedulerTheorems.SliceOrder | src/scheduler/scheduler.cpp:122-158 | The slices of a task begin in program order, each once, whichever workers run them; a finished task began one more than it pauses |
| SchedulerTheorems.DrainLeavesOnlyLate | src/scheduler/scheduler.cpp:141-159 | When all workers have left `run`, a task left in a queue was enqueued from outside after `stop` and never started, although `pickTask` may return null while other queues hold work |
| SchedulerTheorems.NoQueueUnattended | src/scheduler/scheduler.cpp:78-103 | Every queue with a task that did not come after `stop` has a worker that is busy, or has yet to look at it, or is about to dequeue from a non-empty queue |
| SchedulerDrain.DrainCanEnd | src/scheduler/scheduler.cpp:141-159 | From every state after `stop` in which no worker dereferenced null, all workers can leave without any further submission |
| SchedulerDrain.StopDrainsIff | src/scheduler/scheduler.cpp:43-67 | Every drain from the moment of `stop` on leaves the queues empty if and only if no submission from outside is then between its check and its enqueue, or a worker has dereferenced null |
| SchedulerTheorems.ExactlyOnce | src/scheduler/scheduler.cpp:105-160 | If no outside submission straddles `stop`, then after the drain every accepted task has finished and has begun each of its slices once, in order |
| SchedulerTheorems.LateTaskIsStranded | src/scheduler/scheduler.cpp:57-64 | A submission that straddles `stop` can be accepted and never run |
| SchedulerTheorems.DrainTerminates | src/scheduler/scheduler.cpp:141-159 | After `stop`, in any interleaving, no more moves than the measure can change anything, and slices begun plus slices left stay constant |
| SchedulerTheorems.DrainGoesOn | src/scheduler/scheduler.cpp:141-159 | A worker that has not left `run` can always take a step, unless it dereferenced a null coroutine |
| SchedulerTheorems.DrainResumes | src/scheduler/scheduler.cpp:141-159 | When all have left and no task is late, the resumes since `stop` are exactly the slices that were left then |
| SchedulerPool.StealVisitsEachOnce | src/scheduler/scheduler.cpp:91-95 | The steal loop comes to each queue index exactly once |
| SchedulerPool.HighWaterMark | src/scheduler/scheduler.cpp:69-76 | With callback tasks only, as many coroutines are ever made as there were started and unfinished tasks at the busiest moment |
| SchedulerPool.NullCoroutineNeedsTwoWorkers | src/scheduler/scheduler.cpp:70-73 | Line 72 can dereference null if and only if there are at least two workers |
| Scheduler.Scheduler.constructor | src/scheduler/scheduler.cpp:8-19 | A new scheduler is in the initial state of the transition system: stopped, with empty queues and pool |
| Scheduler.Scheduler.Start | src/scheduler/scheduler.cpp:29-41 | `start` does nothing when running, and otherwise sets the scheduler running with every worker at the top of its first loop |
| Scheduler.Scheduler.Stop | src/scheduler/scheduler.cpp:43-54 | `stop` does nothing when stopped; otherwise, when the workers have been joined, the queues are empty if no submission was under way when it was called |
| Scheduler.Scheduler.Execute | src/scheduler/scheduler.cpp:56-67 | `execute` from outside refuses when stopped; otherwise its task, a callback or a coroutine of its own, becomes the last in the queue it was meant for and nothing else is queued, and it is late if `stop` came between the check and the enqueue |
| Scheduler.Scheduler.ExecuteInside | src/scheduler/scheduler.cpp:56-67 | `execute` from a running callback submits its request once, under any schedule, and returns to the callback; alone, it is accepted unless stopped, and its task then becomes the last in the queue it was meant for, as a callback or a coroutine of its own |
| Scheduler.AcceptEnlists | src/scheduler/scheduler.cpp:57-67 | An accepted request is a new task that has not run, at the end of its worker's queue or of the shared one, and nothing else changes |
| Scheduler.Scheduler.RunSlice | src/coroutine/coroutine.cpp:59-79 | A slice submits every request of the callback once and in order, under any schedule; alone, each becomes a task unless the scheduler is stopped |
| Scheduler.Scheduler.GetIdleCoroutine | src/scheduler/scheduler.cpp:69-76 | An idle coroutine is taken from the front of the pool or a new one is made; either is ready with the callback, and null is met only when others interfere |
| Scheduler.Scheduler.PickTask | src/scheduler/scheduler.cpp:78-103 | `pickTask` begins and submits nothing; alone, it removes the first task of its own queue, else of the shared one, else of the first other queue in steal order that has one, and finds nothing only if all queues are empty |
| Scheduler.Scheduler.RunCoroutine | src/scheduler/scheduler.cpp:124-129 | Under any schedule, resuming a coroutine begins exactly its next slice and submits what the callback asks for in it; alone, the coroutine is then the last in the pool if it ended, and the last in the worker's own queue otherwise |
| Scheduler.Scheduler.RunTask | src/scheduler/scheduler.cpp:122-138 | Under any schedule, running a task begins exactly its next slice, submits what the callback asks for in it, and returns to the loop, unless a null coroutine is dereferenced, which others must cause |
| Scheduler.Scheduler.FirstLoop | src/scheduler/scheduler.cpp:114-139 | The first loop ends under every finite schedule after which the scheduler is stopped, at the head of the second |
| Scheduler.Scheduler.SecondLoop | src/scheduler/scheduler.cpp:141-159 | The second loop ends under every finite schedule, by the measure of the drain; alone, it leaves every queue empty |
| Scheduler.Scheduler.RunWorker | src/scheduler/scheduler.cpp:105-160 | `run` performs the run that its own moves and the others' turns make, ends with the worker gone unless it dereferenced a null coroutine, and has submitted exactly what the slices that it began ask for, in order |
| Coroutine.ResumedOncePerSlice | src/coroutine/coroutine.cpp:59-79 | A callback that yields k times can be resumed exactly k + 1 times |
| Coroutine.ReusableIffKnownEnd | src/coroutine/coroutine.cpp:42-57 | An ended coroutine can be reset, and destroyed, if and only if its callback did not throw an unknown exception; otherwise no sequence of calls changes it again |
| Coroutine.ResetRestarts | src/coroutine/coroutine.cpp:81-96 | Whatever a coroutine was before, after a reset it can be resumed once per slice of the new callback, and its status is then what the new callback's end makes it |
| Coroutine.SchedulerAgrees | src/coroutine/coroutine.cpp:59-68 | From `resume` to the switch back, the scheduler's transition system changes a coroutine as the class does |
| Coroutine.Coroutine.constructor | src/coroutine/coroutine.cpp:12-29 | A new coroutine is ready at the start of its callback |
| Coroutine.Coroutine.ResumeOn | src/coroutine/coroutine.cpp:59-68 | `resume` is refused unless ready or suspended; it comes back with the status that the slice ended with and with no current coroutine |
| Coroutine.Coroutine.Yield | src/coroutine/coroutine.cpp:70-79 | `yield` is refused unless running, and suspends |
| Coroutine.Coroutine.Trampoline | src/coroutine/coroutine.cpp:42-57 | The end of the callback sets `DEAD` or `ECPT`, or leaves the status on an unknown exception, and clears the current coroutine |
| Coroutine.Coroutine.ResetTo | src/coroutine/coroutine.cpp:81-96 | `reset` is refused while running, and otherwise makes the coroutine ready at the start of the new callback |
| LogPattern.TextRoundTrip | src/log/layout.cpp:226-273 | Printing a well-formed token list and scanning the result gives the list back |
| LogPattern.TextReassembles | src/log/layout.cpp:226-273 | The tokens of every pattern print as the pattern, up to a lone `%` at its end, and as a prefix of it when a brace is not closed |
| LogPattern.ScanIffPrint | src/log/layout.cpp:226-273 | A token list is the clean scan of a pattern if and only if it is well formed and prints as that pattern |
| LogLayout.Layout.constructor | src/log/layout.cpp:8-11 | A layout holds the items of its pattern's tokens |
| LogLayout.Layout.ReadText | src/log/layout.cpp:231-242 | State SCAN reads the text up to the next `%`, which may be empty |
| LogLayout.Layout.ReadDirective | src/log/layout.cpp:243-268 | State CREATE reads a directive with its parameter of at least one character, or reports an unclosed brace |
| LogLayout.Layout.Init | src/log/layout.cpp:199-274 | The two-state loop computes the items of the scanned tokens, and reports an error exactly for an unclosed brace |
| LogLayout.Layout.Print | src/log/layout.cpp:13-19 | Rendering concatenates what the items print, in order; `DirectivePrints` and `ParameterPrints` say what that is |
| LogLayout.DirectivePrints | src/log/layout.cpp:206-224 | Each directive prints its part of the event, a level in its text and a date in the default format; an unknown letter prints an error text |
| LogLayout.ParameterPrints | src/log/layout.cpp:85-104 | A parameter is the format of a date or the text of `%o`, and other directives ignore it |
| LogLayout.RenderingComposes | src/log/layout.cpp:13-19 | Rendering p followed by q is rendering p and then q, if p ends cleanly and not in a bare directive to which a brace at the start of q would belong |
| LogConcat.ScansSideBySide | src/log/layout.cpp:229-273 | The scan of p followed by q is the scans of p and q side by side, adjoining text run together, if and only if p does not end in a bare directive with a brace at the start of q; otherwise that directive gains a parameter or the brace is not closed |
| LogLayout.BraceIsTaken | src/log/layout.cpp:246-262 | In the excluded case, with any directive and any q, everything before the directive is printed, then the directive with its new parameter, then the rest of q |
| LogLayout.BraceIsOpen | src/log/layout.cpp:253-255 | When the brace is not closed, the error is reported and nothing is printed from the directive on |
| LogLayout.EscapeIsLiteral | src/log/layout.cpp:229-273 | Every string has a pattern, with `%%` for `%` and `%o{{}` for `{`, that renders exactly it |
| ConfigNodes.EncodeValue | include/qc/config/config.h:22-28 | The `encode` loops make a node that lists the value's parts each once, and a null node for an empty container |
| ConfigNodes.EncodeList | include/qc/config/config.h:22-28 | A list's node has its elements' nodes in order |
| ConfigNodes.EncodeSet | include/qc/config/config.h:62-68 | A set's node has each element's node once, in the order of iteration |
| ConfigNodes.EncodeTable | include/qc/config/config.h:82-88 | A map's node has each key once, with its value's node |
| ConfigNodes.DecodeValue | include/qc/config/config.h:29-37 | The `decode` loops compute the decoded value, which exists exactly for the nodes that denote one (`DecodeIffDenotes`) |
| ConfigNodes.DecodeItems | include/qc/config/config.h:33-36 | Elements are decoded in order, and one failure fails all |
| ConfigNodes.DecodeTable | include/qc/config/config.h:93-96 | The first of several entries for one key is kept |
| ConfigNodes.DecodeIffDenotes | include/qc/config/config.h:20-138 | Decoding succeeds exactly on the nodes that denote a value of the type, and with that value: a numeral in range, a scalar, a sequence of elements, or a map in which the first entry for a key counts |
| ConfigNodes.ReadIntIffNumeral | include/qc/config/config.h:217-228 | A text reads as an integer exactly when it is digits with at most one minus sign, and then as the sum of its digits by their powers of ten |
| ConfigNodes.RoundTripIffFull | include/qc/config/config.h:20-138 | Whatever the order of iteration, decoding an encoded value gives it back if no container in it is empty, and fails otherwise |
| ConfigNodes.NullIffEmpty | include/qc/config/config.h:22-28 | A node is null if and only if the value is an empty container |
| ConfigNodes.DecodeTyped | include/qc/config/config.h:29-37 | A decoded value has the type asked for |
| ConfigTree.FlattenIsPreorder | src/config/config.cpp:8-20 | The flattened tree lists, in preorder and each once, exactly the nodes reached through valid names, under their dotted names |
| ConfigTree.ChildName | src/config/config.cpp:14-18 | A node is listed under its parent's name, a dot and its key, or under its key when the parent has no name |
| ConfigTree.NameCharIff | src/config/config.cpp:9 | The characters of a name are exactly the letters, digits, dot and underscore that the source lists |
| ConfigTree.LastWriterWins | src/config/config.cpp:36-49 | After a load a variable has the value of the last entry in preorder that carries its name, is not null and decodes |
| ConfigTree.LoadedValue | src/config/config.cpp:36-49 | After a load a variable has the value written last, and its old value when none is written |
| ConfigTree.UnwrittenUntouched | src/config/config.cpp:36-49 | A variable without such an entry keeps its value, and its listener is not called |
| ConfigTree.MeaninglessUntouched | src/config/config.cpp:36-49 | Entries that denote no value of a variable's type leave it and its listener alone |
| ConfigTree.IntegerEntry | include/qc/config/config.h:217-228 | An entry sets an integer variable, to the number it denotes, exactly when it is a numeral in the 32-bit range |
| ConfigTree.ListenerCallsChain | include/qc/config/config.h:233-241 | The listener's calls in a load lead from the old to the new value, each old value being the new one before it and different from the next |
| ConfigRestore.RestoredIffUndisturbed | src/config/config.cpp:22-50 | Loading any earlier export, after any changes, always restores a variable (or leaves it, when a container in its exported value was empty) if and only if no other variable has an encoding whose flattened subtree gives it another value |
| ConfigRestore.ExportThenLoad | src/config/config.cpp:22-50 | Loading an export after any changes gives a variable its exported value if no container in it was empty, and leaves it otherwise, given that no name extends another by a dot |
| ConfigRestore.ExtendedNameIsLost | src/config/config.cpp:22-50 | A table with a key k and a variable named by the table and k: an export that lists the table last overwrites the variable at once |
| Config.ConfigVar.constructor | include/qc/config/config.h:173-174 | A new variable has its default value and no listener |
| Config.ConfigVar.SetValue | include/qc/config/config.h:233-241 | An equal value changes nothing; another calls the listener with both values and is then stored |
| Config.ConfigVar.FromNode | include/qc/config/config.h:217-228 | The decoded value is set; when decoding fails the variable stays as it is |
| Config.ConfigVar.ToNode | include/qc/config/config.h:205-215 | The node is an encoding of the value |
| Config.Config.Create | include/qc/config/config.h:270-302 | Null for an empty or invalid name and for a name registered with another type; the registered variable for a known name; otherwise a new one, and no other variable changes |
| Config.Config.TraversalYaml | src/config/config.cpp:8-20 | The recursion appends exactly the flattened tree to the list |
| Config.Config.LoadEntry | src/config/config.cpp:37-48 | A nameless, unknown, null or undecodable entry changes nothing; another sets its variable alone |
| Config.Config.LoadFromYaml | src/config/config.cpp:31-50 | Loading applies the entries of the flattened tree in order, and every variable keeps its type |
| Config.Config.GetConfig | src/config/config.cpp:22-29 | The export lists every variable once with an encoding of its value, and is null when there is none |
| LogConfig.ReloadIsRebuild | src/config/log_config.cpp:108-139 | The listener, which skips unchanged entries, leaves every logger as a complete rebuild would |
| LogConfig.WorkingIsLatest | src/config/log_config.cpp:108-139 | After any run of loads and lookups the valid loggers other than the root are exactly those of the latest configuration, each as configured; all others have no appenders, and the root is untouched |
| LogConfig.BuiltAsConfigured | src/config/log_config.cpp:25-98 | A logger that is set up has its configured level and pattern or the defaults, is valid, and has the appenders of its usable entries |
| LogConfig.AppendersMatch | src/config/log_config.cpp:44-95 | The appenders are, in order, those of exactly the entries whose kind is known and whose file can be made, each with its own level and pattern or the logger's |
| LogConfig.Logger.SetUp | src/config/log_config.cpp:25-98 | A logger that is set up is valid and has the configured or default level and layout, whatever it was before |
| LogConfig.Logger.AddAppenders | src/config/log_config.cpp:44-95 | The appenders of the entries (`AppendersMatch`) are added behind those there are |
| LogConfig.Manager.constructor | src/log/manager.cpp:8-19 | At first the root logger alone exists, valid and with one console appender in the default layout |
| LogConfig.Manager.GetLogger | src/log/manager.cpp:21-31 | The logger of that name, made invalid and empty if there is none; no logger is ever replaced |
| LogConfig.Manager.SetupLogger | src/config/log_config.cpp:25-98 | The named logger is built from its configuration and no other changes |
| LogConfig.Manager.SetUpChanged | src/config/log_config.cpp:111-126 | The first loop sets up exactly the new and the changed entries other than the root |
| LogConfig.Manager.RetireMissing | src/config/log_config.cpp:127-137 | The second loop switches off exactly the loggers that are no longer configured, other than the root |
| LogConfig.Manager.Listener | src/config/log_config.cpp:108-139 | The listener brings the loggers in line with the new configuration |
| LogConfig.Manager.SetValue | include/qc/config/config.h:233-241 | A new value of `logs` brings the loggers in line with it; an equal one does nothing |

## Left out

- Weak memory orders, reuse of addresses, and the reclamation of nodes that another thread still reads.
- Switching contexts, stacks, `malloc` and `coro_count`: only status, current coroutine and remaining slices are kept.
- Condition variables, semaphores, mutexes, read-write locks and thread creation: wrappers around library calls.
- Lock nesting in `GetConfig` and `Visit`; `Visit` is part of `Config.GetConfig`, its only caller here.
- `toString`, `fromString` and the text form of YAML; only node trees are modelled.
- Scalars other than text and decimal 32-bit integers, and the further notations of yaml-cpp: a leading plus sign,
  hexadecimal and, by a leading zero, octal numbers.
- The conversions of `LogConfig` and `AppenderConfig` to and from nodes in include/qc/config/log_config.h.
- Writing to the console and to files, and the creation of directories.
- Setters and getters of `Logger`, `Manager` and `Event`, and the log macros: they would add easy members only.
- Coroutines that resume coroutines, and one coroutine submitted twice.
- LockFreeQueue.LockFreeQueue.Dequeue: a value that is itself null is not told apart from an empty queue, as in the
  source.
- Scheduler.Scheduler.Stop: that the workers leave, so that `join` returns, is a property of the schedule it is given.
  `SchedulerTheorems.DrainTerminates` bounds every drain, and `SchedulerDrain.DrainCanEnd` shows that one with all
  workers gone exists from every state in which none dereferenced null.
- LogConfig.Manager.GetLogger: a new logger's level is whatever memory held, as the source does not initialise it.

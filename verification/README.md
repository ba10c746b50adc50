# gpuq in Dafny

gpuq runs batch jobs one at a time on a single GPU. A daemon owns a durable job table, a scheduler
task, a lease that lets a person hold the GPU instead, an event bus, and one log directory per job.
Everything happens in one asyncio loop, so tasks interleave only where one of them suspends.

This project models the daemon at exactly that grain and proves what holds at every suspension point
of every run, crashes and restarts included, under any interleaving of clients.

How the files fit together:

- `Jobs`, `PriorityQueue`, `Logs`, `Events`, `Prune` are the objects the daemon is made of (`JobRepo`,
  `Queue`, `JobLogs`, `Bus`), written as classes and proved against functions on their contents.
- `Machine` is the daemon as a state machine: a `Step` is one stretch of code between two suspensions,
  with the choices of the outside world as its arguments; `Run` is any sequence of enabled steps from
  an empty daemon.
- `Daemon` is the `Server` object again, with one method for each stretch, each proved
  to leave the state that `Machine` computes. `Daemon.Play` plays any run of the machine on the objects,
  state by state.
- `Invariants` is what every step keeps. `QueueRuns`, `Progress`, `History`, `Streams`, `Losses`,
  `Delivery` and `Exclusion` are the theorems about whole runs; `Counterexamples` holds complete runs that
  show what the daemon does not guarantee.
- `Rows`, `Outcomes`, `Archive`, `Cancels` and `Leases` read the state off the run: which rows and log
  directories there are and what is in them, what becomes of each job, which cancel handlers and lease
  requests wait, and what they are told, each as an if and only if over the steps taken so far.
- `Clients` puts a client beside the `Server` object: what is on its connection after any run.
- `Estimates` is the waiting time a submitter is told. `Clock` is the order of the stored time stamps.
- `Scalars`, `Json` and `Protocol` are the wire format down to its characters; `IndexFile` is the text of
  the replay index.

Where the program falls short of a promise, the lemma says exactly when:

- A lease and a job can hold the GPU together, because both sides check first and await eviction
  afterwards (`Counterexamples.LeaseAndJobTogether`). A run is free of this exactly when no lease in it
  is granted while a job is starting or running (`Exclusion.ExclusionExactly`).
- Two leases can be open at once, and then the first can never be released (`Counterexamples.TwoLeases`,
  `Exclusion.StrandedForGood`). A run is free of this exactly when it has no grant and no crash while a
  lease is held (`Exclusion.OneLeaseExactly`).
- A crash loses the wakeup of queued jobs: jobs wait unattended exactly when there was a crash and no
  submit, retry or release since (`Counterexamples.ForgottenJob`, `QueueRuns.ForgottenExactly`).
- `prune` deletes active rows exactly when its request has states and all of them are active ones; any
  other word among them, or no states at all, spares active rows (`Prune.RefusesActiveRows`,
  `Prune.PruneRunningJob`). README.md of the repository promises to spare them always.
- A line of output that is written after the run of its job is over is in the log, and the clients that
  stream the job are not sent it. It takes a failed pump, such as one that met a line over the reader's limit,
  while the other pump goes on (`Counterexamples.LateLine`). A submitter that stays has all lines exactly when
  there is no such line, and so has a follower unless it attached after the last line (`Losses.MissedExactly`,
  `Delivery.SubmitterGetsEverything`, `Delivery.AttachMissesNothing`).
- A client that streams a job is released exactly when the job's run finishes or it is cancelled while
  queued (`Delivery.ReleasedExactly`). So it is never released when eviction fails, when the log files
  cannot be opened, or when a prune of queued jobs deletes the job (`Delivery.NeverReleased`,
  `Counterexamples.FailedUnannounced`, `Counterexamples.PrunedUnannounced`).
- A cancel that times out escalates to its own job while that job's row exists; when it was pruned in
  between, another job can be killed (`History.CancelKillsItsOwn`,
  `Counterexamples.WrongJobKilled`).
- The waiting time is off exactly during an eviction, under a lease that outlasts the current job, or
  when that job's row was pruned (`Estimates.EtaIsSimulation`, `Counterexamples.WrongEstimate`).
- A malformed frame is not always answered with a protocol error (`Protocol.RefusalsExactly`).
- Decoding undoes encoding exactly for values in which no string has a high surrogate right before a low
  one (`Json.LoadsPrintedExactly`, `Protocol.DecodeEncoded`, `Protocol.SurrogatesAreNotCarried`).

The code was followed where documents differ from it: the design document reconciles a restart by
looking at pids, queues leases by priority and lets them expire, and README.md describes `prune` as
deleting done and failed jobs, where the code deletes cancelled ones as well.

## Model

| member | source | states |
|---|---|---|
| Jobs.Least | src/gpuq/state.py:213-218 | of a non-empty set of rows, the one that no other sorts before |
| Jobs.Order | src/gpuq/state.py:165-166 | the listing of a query: every row asked for, none other, each pair in `ORDER BY` order |
| Jobs.OrderIsUnique | src/gpuq/state.py:165-166 | a sorted listing without gaps is the query's result; there is no second one |
| Jobs.IndexIsRank | src/gpuq/daemon/queue.py:106-110 | a row's index in the listing is the number of rows that sort before it |
| Jobs.OrderFrame | src/gpuq/state.py:165-166 | the listing depends on nothing but the priorities and submission stamps of the rows asked for |
| Jobs.MaxQueued | src/gpuq/state.py:195-202 | the highest priority of the queued rows other than the excluded one, attained by one of them; none exactly when there is no such row |
| Jobs.FrontIsOneAbove | src/gpuq/daemon/server.py:263-265 | the number for the front is exactly one more than the best of the queued rows considered, or 1 when there are none |
| Jobs.JobRepo.Insert | src/gpuq/state.py:108-129 | adds the row, or refuses a duplicate id and changes nothing |
| Jobs.JobRepo.Delete | src/gpuq/state.py:131-133 | removes exactly this row and says whether it was there |
| Jobs.JobRepo.Find | src/gpuq/state.py:142-166 | exactly the rows that meet every given condition, an empty argument being none, in order |
| Jobs.JobRepo.UpdateState | src/gpuq/state.py:168-193 | sets the state, and every other column only where a value is given; an unknown id changes nothing |
| Jobs.JobRepo.Fail | src/gpuq/daemon/server.py:97-99 | one more row of a set that is being failed, the others as they were |
| Jobs.JobRepo.Bump | src/gpuq/state.py:204-211 | succeeds exactly on a queued row, and gives it exactly one more than the best of the others, or 1 |
| PriorityQueue.LeaveRefines | src/gpuq/state.py:168-193 | a write that takes rows out of the queue leaves all others in the same relative order |
| PriorityQueue.PopRefines | src/gpuq/daemon/queue.py:98-104 | a pop takes the head of the pending list and leaves the rest |
| PriorityQueue.InsertRefines | src/gpuq/daemon/server.py:261-280 | a new row lands behind every queued row of at least its priority and ahead of all others |
| PriorityQueue.InsertNextRefines | src/gpuq/daemon/server.py:263-265 | the number computed for `--next` means the front of the queue |
| PriorityQueue.BumpRefines | src/gpuq/state.py:204-211 | a bump is move-to-front, all other jobs keeping their order, even when the number gets lower |
| PriorityQueue.FirstIsNext | src/gpuq/daemon/queue.py:106-110 | position 1 is exactly the row that the next pop takes |
| PriorityQueue.Queue.constructor | src/gpuq/daemon/queue.py:90-92 | a fresh queue has its notify flag unset |
| PriorityQueue.Queue.Enqueue | src/gpuq/daemon/queue.py:94-96 | inserts the row and sets the flag; a duplicate id does neither |
| PriorityQueue.Queue.Pop | src/gpuq/daemon/queue.py:98-104 | takes the head of the pending list and marks it starting, or clears the flag when nothing is pending |
| PriorityQueue.Queue.Position | src/gpuq/daemon/queue.py:106-110 | the linear search returns one more than the number of queued rows that sort before this one |
| PriorityQueue.Queue.Cancel | src/gpuq/daemon/queue.py:112-117 | succeeds exactly on a queued row, and removes it alone from the pending list |
| Logs.Write | src/gpuq/logs.py:35-40 | one line more in the index, and each text file stays the concatenation of its stream's lines |
| Logs.JobLogs.Open | src/gpuq/logs.py:28-33 | opens for appending: what a directory holds is kept, followers start from none |
| Logs.JobLogs.Append | src/gpuq/logs.py:35-42 | the line goes to its stream's file, the combined file and the index, and to the end of every follower's queue |
| Logs.JobLogs.Eof | src/gpuq/logs.py:44-46 | the end marker goes to the end of every follower's queue |
| Logs.JobLogs.Close | src/gpuq/logs.py:48-51 | no file changes any more |
| Logs.JobLogs.Remove | src/gpuq/daemon/server.py:524-526 | removes one job's directory and no other |
| Logs.JobLogs.ReadAll | src/gpuq/logs.py:53-62 | the whole index in order, nothing for a directory that is not there |
| Logs.JobLogs.Tail | src/gpuq/logs.py:64-65 | for n of at least 1 the newest lines, n of them or all there are; for every other n what the slice gives |
| Logs.JobLogs.Follow | src/gpuq/logs.py:67-69 | a new empty queue on the list, the others unchanged |
| Logs.JobLogs.Take | src/gpuq/logs.py:71-78 | takes the oldest item; the end marker takes the queue off the list |
| Logs.JobLogs.PumpLine | src/gpuq/daemon/runner.py:33-38 | one turn of a pump adds the same line to the index and to every follower, and keeps the files consistent |
| Logs.JobLogs.Pumps | src/gpuq/daemon/runner.py:40-44 | under every interleaving of the two pumps each pipe's lines come out complete and in order, the files are the concatenations of their parts of the index, and a follower is handed exactly what the index gained |
| IndexFile.AppendAtEnd | src/gpuq/logs.py:40 | each append writes one record at the end of the file's text |
| IndexFile.ReadFile | src/gpuq/logs.py:53-62 | the loop returns what each record has under the two keys, in order, and raises if and only if some raw line is no object with both |
| IndexFile.FileReadsBack | src/gpuq/logs.py:35-62 | reading the text of the index file gives back exactly the lines appended, whatever characters they contain |
| IndexFile.ShownExactly | src/gpuq/logs.py:53-62 | two logs read the same only if they are the same |
| Events.StreamedUpTo | src/gpuq/daemon/server.py:307-315 | a stream sends exactly the events up to its first terminal one |
| Events.Bus.Subscribe | src/gpuq/daemon/server.py:39-42 | a new empty queue for this job, in step with the feed from here on |
| Events.Bus.Unsubscribe | src/gpuq/daemon/server.py:44-46 | this queue goes, all others stay in step |
| Events.Bus.Publish | src/gpuq/daemon/server.py:48-50 | the event goes to the end of the queue of every subscriber of that job and of no other; all subscriptions stay, for their own jobs, and hold exactly what was published since they began |
| Events.Bus.Close | src/gpuq/daemon/server.py:52-54 | the same for the closing marker |
| Events.Bus.Get | src/gpuq/daemon/server.py:309 | takes the oldest event of one queue and remembers it as read; every other queue stays as it was |
| Events.Bus.SendOne | src/gpuq/daemon/server.py:309-315 | one turn of the loop: the event is sent unless it is the marker, and the loop returns exactly at the marker or a terminal event; then what was sent is the streamed part of all that was published since it subscribed |
| Events.Bus.StreamUntilTerminal | src/gpuq/daemon/server.py:304-317 | what a client has been sent is what was published since it subscribed, up to and including the first terminal event; the loop returns exactly when there is one or a closing marker, and no other client's subscription changes |
| Prune.UnfilteredIsEmpty | src/gpuq/daemon/server.py:510-511 | the filtered state list is empty exactly when the request has states and all of them are active ones |
| Prune.VictimsExactly | src/gpuq/daemon/server.py:510-520 | a request with no states, or with some word that is not an active state, deletes exactly the terminal rows in its states, without the kept tag, whose finished or else submitted stamp is before the cutoff |
| Prune.RefusesActiveRows | src/gpuq/daemon/server.py:510-513 | active rows are safe from a request, in all tables, if and only if it has no states or some word in it is not an active state |
| Prune.PruneRunningJob | src/gpuq/daemon/server.py:511-513 | every request whose states are all active ones deletes a running row |
| Prune.HandlePrune | src/gpuq/daemon/server.py:507-530 | the loop deletes exactly the victims with their log directories and lists them in order; a dry run lists the same and changes nothing |
| Invariants.NothingFixable | src/gpuq/daemon/server.py:455-468 | no row that doctor could fix exists when the invariants hold |
| Invariants.SoundKept | src/gpuq/daemon/server.py:101-191 | every step keeps the invariants and moves rows only queued to starting or cancelled, starting to running or failed, running to done or failed |
| Invariants.RunSound | src/gpuq/daemon/server.py:101-191 | in every state of every run: starting iff inside its eviction, running iff current, runner set iff current, lease flag iff lease id, and each row's columns fit its state |
| Invariants.RunKept | src/gpuq/daemon/server.py:97-191 | between any two consecutive states of any run every row moved along an allowed edge or is new and queued |
| QueueRuns.StepWrote | src/gpuq/daemon/queue.py:89-117 | every step writes the table as exactly one operation on the pending list does |
| QueueRuns.StepRefines | src/gpuq/daemon/queue.py:89-117 | over all runs: submit and retry insert behind, `--next` and bump go to the front, cancel and prune remove, waking pops the head, every other step leaves the list alone |
| QueueRuns.QueueSurvivesCrash | src/gpuq/daemon/server.py:97-99 | queued rows come through a crash and restart unchanged and in the same order |
| QueueRuns.PopTakesHead | src/gpuq/daemon/server.py:109 | the row a run pops is the head of the list, and the rest moves up |
| QueueRuns.DrainsInOrder | src/gpuq/daemon/server.py:101-111 | while only pops touch the queue, whatever else happens, the ids popped followed by those pending are the list there was |
| QueueRuns.FilteredPruneKeepsQueue | src/gpuq/daemon/server.py:507-530 | a prune with no states, or with some word that is not an active state, changes neither the queue's order nor any position |
| Progress.NeverStuck | src/gpuq/daemon/server.py:125-191 | in every reachable state with a job under way the daemon has an enabled step of its own that brings the job closer to its end: it leaves a smaller measure |
| Progress.EveryScheduleRests | src/gpuq/daemon/server.py:101-191 | whatever the order of turns: as long as only the daemon moves, the steps that move something on are no more than what there was to do plus the lines the children write, less what is still to do; records of the pid and polls under a held lease are not counted |
| Progress.RestIsDone | src/gpuq/daemon/server.py:101-191 | when no such step is possible any more, no job is under way, and nobody is queued but under a held lease or a lost wakeup |
| Progress.OutsideIsFree | src/gpuq/daemon/server.py:195-262 | in any state every request and a crash are possible, and so is every outcome of an eviction and everything a child can do |
| Progress.HeadCanBePopped | src/gpuq/daemon/server.py:101-111 | an idle scheduler that was told, with no lease held, can pop, and pops the head of the queue |
| Progress.DrainsFully | src/gpuq/daemon/server.py:101-119 | from every reachable state without a held lease or a lost wakeup the daemon can by itself go on until the queue is empty and nothing runs, popping exactly the queued jobs in order |
| QueueRuns.PositionStep | src/gpuq/daemon/queue.py:106-110 | how one operation changes a position: minus the entries ahead that leave, plus inserts that land ahead, plus bumps from behind |
| QueueRuns.PositionAccounting | src/gpuq/daemon/queue.py:106-110 | while a job stays queued and unbumped, its position is its first position plus the sum of those changes |
| QueueRuns.LeavesOnlyBy | src/gpuq/daemon/server.py:101-111 | a job leaves the queue only by being popped, cancelled, or deleted by a prune whose states are all active ones |
| QueueRuns.StillTheSame | src/gpuq/state.py:204-218 | a job that is still queued and was not bumped has the same row as when it entered |
| QueueRuns.FirstComeFirstServed | src/gpuq/state.py:213-218 | of two jobs that enter with equal priority and are never bumped, the later is popped only after the earlier has left, whatever happens in between |
| QueueRuns.NoLostWakeup | src/gpuq/daemon/server.py:101-111 | one step loses a wakeup if and only if it is a crash with rows queued |
| QueueRuns.NotifyMoves | src/gpuq/daemon/queue.py:94-104 | the notify flag after any step: set by an arrival or release, cleared by a crash and by a wake that finds nobody |
| QueueRuns.ForgottenExactly | src/gpuq/daemon/queue.py:90-104 | in every state of every run, jobs are queued with the flag unset if and only if there was a crash and no submit, retry or release since |
| QueueRuns.WakeupRestored | src/gpuq/daemon/queue.py:94-96 | the next submit, retry or lease release makes it true again |
| History.OneActive | src/gpuq/daemon/server.py:101-191 | at most one row is starting or running, and it is the scheduler's job |
| History.TerminalIsForever | src/gpuq/state.py:168-193 | a terminal row keeps every column for as long as it exists |
| History.DoctorChangesNothing | src/gpuq/daemon/server.py:433-470 | `doctor --fix` changes no row in any reachable state |
| History.SubmitInserts | src/gpuq/daemon/server.py:261-285 | a submit adds one row under a fresh id: the work asked for, queued, with nothing else filled in, at the asked priority, or at the front with one more than the best queued priority, or 1; no other row changes |
| History.BumpNumbers | src/gpuq/state.py:204-211 | a bump changes one column of one queued row, to one more than the best priority of the other queued rows, or 1, and of any other id nothing |
| History.RetryInserts | src/gpuq/daemon/server.py:472-501 | a retry adds a row if and only if the original is failed or cancelled, or done and forced; it copies work and priority, names its parent, and no other row changes |
| History.MovesAreStamped | src/gpuq/daemon/server.py:148-181 | every change of a row's state is stamped with the clock of its own step, as start or as finish |
| History.PidRecorded | src/gpuq/daemon/server.py:157-160 | the pid goes to the row of the current job and to no other column or row |
| History.PoppedOnce | src/gpuq/daemon/queue.py:98-104 | no job is popped twice, over any number of crashes and restarts |
| History.SpawnedOnce | src/gpuq/daemon/server.py:154-162 | no job's child is spawned twice, over any number of crashes and restarts |
| History.SerialBlocks | src/gpuq/daemon/server.py:125-191 | between the starts of two jobs the first one ends, and until then every step of the scheduler belongs to it |
| History.AlwaysTracked | src/gpuq/daemon/server.py:507-530 | with filtered prunes only, the scheduler's job always has its row |
| History.CancelKillsItsOwn | src/gpuq/daemon/server.py:379-381 | on a timeout KILL goes to a runner that exists and belongs to the job being cancelled whenever that job has its row; in runs with filtered prunes only, if and only if it has its row |
| History.CancelSignalsItsOwn | src/gpuq/daemon/server.py:360-395 | the reply or signal of a cancel for an unknown id and for each row state; the assertion on the runner never fails and the signal goes to the job's own runner |
| Cancels.WaitsExactly | src/gpuq/daemon/server.py:374-391 | in every state of every run, a handler waits if and only if a cancel of a running job came and no look since ended the wait, by the job being over, by the time being up after KILL was sent or with no job current, or by a crash; it knows its job and whether KILL was sent |
| Cancels.LookReplies | src/gpuq/daemon/server.py:374-425 | every look of a waiting handler: ok if and only if the job is over then; waiting on if and only if it is not and the time is not up; KILL to the current job's process if and only if the time is up for the first time; wedged if and only if it is up and KILL was asked for or sent before; after a reply the handler is gone |
| Rows.RowsExactly | src/gpuq/state.py:108-133 | in every state of every run a job has its row if and only if it was submitted, or made by a retry that was allowed, and no prune has deleted it since |
| Rows.RowWrites | src/gpuq/state.py:168-211 | what every step writes to every row, column by column, and that it writes nothing else |
| Outcomes.ExitDecides | src/gpuq/daemon/server.py:162-191 | the child's exit code is the code in the row and in the terminal event, and the job is done if it is 0 and failed otherwise; a run that raised is failed with -1; no other row changes |
| Outcomes.FinishedHasRunEnd | src/gpuq/daemon/server.py:162-191 | no job is finished unless its run ended before, with no crash in between |
| Outcomes.FateExactly | src/gpuq/daemon/server.py:97-191 | in every state of every run a row says done, failed or cancelled, with an exit code and a finishing time, if and only if a step decided just that: an exit, a run that raised, an eviction given up, a crash, or a cancel in the queue |
| Outcomes.StartOf | src/gpuq/daemon/server.py:145-152 | a running or done row has the time of the step that started it as its start |
| Outcomes.RuntimeIsMeasured | src/gpuq/daemon/queue.py:42-51 | the runtime of a done job is the time from the step that started it to the step that finished it, in seconds |
| Streams.ClosedShape | src/gpuq/daemon/server.py:143-191 | a closed feed ends in one terminal event and the marker, with no other end before |
| Streams.ClosedStreamed | src/gpuq/daemon/server.py:304-317 | of a closed feed a client is sent all but the marker, and released |
| Streams.StepFlows | src/gpuq/daemon/server.py:136-191 | every step keeps, for every job: published lines, then lines waiting for the mirror, then lines after the mirror stopped, are the index |
| Streams.RunFlows | src/gpuq/daemon/server.py:136-191 | the same in every state of every run |
| Losses.MissedStep | src/gpuq/daemon/server.py:136-169 | while a job runs, one step loses a line of its output, or leaves one where it will be lost, if and only if it writes a line after the run was over |
| Losses.MissedExactly | src/gpuq/daemon/runner.py:33-44 | in every state of every run, of a job that is executed or whose stream is closed: a line is lost, or waits where it will be, if and only if one was written after the run was over |
| Delivery.FeedsGrow | src/gpuq/daemon/server.py:48-54 | what was published stays published until a crash |
| Delivery.SubmittedFromTheStart | src/gpuq/daemon/server.py:284-285 | a new job's feed is empty, so its submitter is subscribed from the first event |
| Delivery.Announced | src/gpuq/daemon/server.py:126-152 | the first events of a job: what was evicted, if anything, and that it runs, if its files open |
| Delivery.PublishedSoFar | src/gpuq/daemon/server.py:136-169 | while a job runs, published and waiting lines are the index; only a pump that outlives a failed run adds others |
| Delivery.FinishCloses | src/gpuq/daemon/server.py:170-191 | a finished job's feed is closed, its last event and its row say the same, and no line is missing unless a pump had failed |
| Delivery.SubmitterGetsEverything | src/gpuq/daemon/server.py:304-317 | the stream of a closed feed is everything up to the single terminal event, which is the last; its lines are all of `read_all()` in order if and only if no line was written after the run was over |
| Delivery.FilesGrow | src/gpuq/logs.py:35-42 | an index only grows while its directory exists |
| Archive.LogExactly | src/gpuq/logs.py:28-42 | in every state of every run a job has its log directory if and only if its files were opened and no prune has deleted it since, however many crashes came; the index is then all that its processes wrote, in order, and the text files are their parts of it |
| Archive.LogSurvives | src/gpuq/daemon/server.py:71-99 | a log directory is there in every later state, and its index only grows, unless a prune deletes it |
| Delivery.AttachMissesNothing | src/gpuq/daemon/server.py:319-331 | a follower from the start misses no line if and only if it attached after the last one or no line was written after the run was over; in the latter case history and live part overlap in exactly the lines that waited for the mirror when it attached |
| Clients.Accompany | src/gpuq/daemon/server.py:304-317 | beside the objects, in any run without a crash, whenever the client's own task gets its turns: a subscriber has been sent exactly the streamed part of the feed since it subscribed, and its loop has returned if and only if the end is in it |
| Clients.SubmitAndStay | src/gpuq/daemon/server.py:261-317 | a client that submits and stays has been sent, once the stream is closed, every event up to the single terminal one, which is the last; its lines are those of `read_all()` if and only if none was written after the run was over |
| Clients.EverythingIsSent | src/gpuq/daemon/server.py:304-317 | the streamed part of a closed feed ends it, and has that shape and those lines |
| Clients.AttachAndFollow | src/gpuq/daemon/server.py:304-331 | a client that attaches to a running job is sent the end of the index that it asked for, and then, with no line written after the run was over, the whole rest, repeating exactly the lines that waited for the mirror |
| Delivery.DoctorReportsExactly | src/gpuq/daemon/queue.py:57-86 | in every state of every run doctor reports the current job and no other, if and only if it is asked for, old enough, has produced no output, and has no live process; the signature says whether it has no pid or a dead one |
| Delivery.AbandonedForGood | src/gpuq/daemon/server.py:114-119 | the open stream of a job that was given up stays open in all later states |
| Delivery.ReleasedExactly | src/gpuq/daemon/server.py:170-191 | in every state of every run a job's stream has ended if and only if, since the last crash, its run finished or it was cancelled while queued |
| Delivery.NeverReleased | src/gpuq/daemon/server.py:112-119 | when eviction raises, the log files cannot be opened, or a prune deletes the job from the queue, its stream never ends |
| Exclusion.LeaseMoves | src/gpuq/daemon/server.py:547-565 | the lease is held after a step iff the step granted it, or it was held and neither released by its holder nor lost in a crash |
| Exclusion.ExclusionStep | src/gpuq/daemon/server.py:532-548 | a step breaks job/lease exclusion if and only if it grants a lease while a job is starting or running |
| Exclusion.ExclusionExactly | src/gpuq/daemon/server.py:532-548 | a run is exclusive in every state if and only if it has no such grant |
| Exclusion.NeverPopsUnderLease | src/gpuq/daemon/server.py:106-109 | no job is ever taken from the queue while a lease is held |
| Exclusion.HeldLeaseIsOpen | src/gpuq/daemon/server.py:536-548 | in every state of every run a lease is held iff the server knows one, and that one has its open row |
| Exclusion.ReleaseCloses | src/gpuq/daemon/server.py:560-568 | the holder's release closes its row at that moment, frees the lease and wakes the scheduler; a null id while no lease is known only wakes it; any other changes nothing |
| Leases.CheckDecides | src/gpuq/daemon/server.py:532-536 | every look of a lease request: with no job being executed and no lease known it goes on, and can then be granted; otherwise it waits and can look again |
| Leases.RequestExactly | src/gpuq/daemon/server.py:532-548 | in every state of every run a request is open if and only if it was made and neither granted nor given up since, and it is past its check if and only if some look of it found the GPU unoccupied |
| Leases.TableExactly | src/gpuq/daemon/server.py:536-563 | the lease table of every state of every run: a row for each lease ever granted, with the time of its grant, and the time at which its holder returned it if and only if it did |
| Leases.KnownLeaseMoves | src/gpuq/daemon/server.py:546-566 | which lease the server knows after any step |
| Exclusion.QuietRunsExclude | src/gpuq/daemon/server.py:106-126 | when no other task steps inside an eviction, jobs and leases exclude each other and no lease is granted while the server knows another |
| Exclusion.StrandsExactly | src/gpuq/daemon/server.py:536-568 | one step strands a lease if and only if the server knows it and the step is a grant or a crash |
| Exclusion.OneLeaseExactly | src/gpuq/daemon/server.py:532-568 | a run has no open lease besides the known one in any state if and only if it has no grant and no crash while a lease is held |
| Exclusion.QuietRunsNeverOverlap | src/gpuq/daemon/server.py:532-568 | leases never overlap, in the table either, when no other task steps inside an eviction and no crash comes under a lease |
| Exclusion.StrandedForGood | src/gpuq/daemon/server.py:560-568 | a lease overwritten by a second grant or forgotten in a crash is never released |
| Counterexamples.LeaseAndJobTogether | src/gpuq/daemon/server.py:533-548 | a run after which a lease is held and a job is running |
| Counterexamples.TwoLeases | src/gpuq/daemon/server.py:533-548 | a run after which two leases are granted and only the second is known |
| Counterexamples.ForgottenJob | src/gpuq/daemon/queue.py:90-92 | a run after which a job is queued and nobody wakes the scheduler |
| Counterexamples.WrongJobKilled | src/gpuq/daemon/server.py:374-381 | a run in which cancelling job 1 sends KILL to the process of job 2 |
| Counterexamples.FailedUnannounced | src/gpuq/daemon/server.py:112-119 | a run after which a job is failed and its submitter still waits |
| Counterexamples.PrunedUnannounced | src/gpuq/daemon/server.py:510-523 | a run after which a queued job is deleted and its submitter still waits |
| Counterexamples.LateLine | src/gpuq/daemon/runner.py:33-44 | for any line, a run after which it is in the index of a job whose closed stream has no line at all |
| Counterexamples.WrongEstimate | src/gpuq/daemon/server.py:406-417 | a run after which a submitter is told to start at once, while the job being evicted for still has its whole runtime before it |
| Daemon.Server.constructor | src/gpuq/daemon/server.py:58-69 | the objects of a new server stand for the initial state |
| Daemon.Server.HandleSubmit | src/gpuq/daemon/server.py:261-302 | the Submit step; replies with the row's position and estimate, subscribed before anything is published |
| Daemon.Server.Detach | src/gpuq/daemon/server.py:299-301 | a detached submitter gives its subscription back and nothing else changes |
| Daemon.Server.HandleAttach | src/gpuq/daemon/server.py:319-331 | the history is the whole index, the last `tail` lines of it, what the slice gives for a `tail` below 1, or nothing, as asked, at the moment of subscribing; only a follower keeps the subscription |
| Daemon.Server.HandleRetry | src/gpuq/daemon/server.py:472-505 | the Retry step; succeeds exactly on failed and cancelled rows, with force also on done ones |
| Daemon.Server.HandleBump | src/gpuq/daemon/server.py:353-358 | the Bump step; succeeds exactly on queued rows |
| Daemon.Server.HandleCancel | src/gpuq/daemon/server.py:360-395 | the Cancel step and its reply or signal |
| Daemon.Server.WaitTerminal | src/gpuq/daemon/server.py:378-391 | the CancelPoll step; ok is replied if and only if the row is terminal at that moment, waiting goes on if and only if it is not and the time is not up, and wedged is replied if and only if the time is up after a KILL |
| Daemon.Server.Examine | src/gpuq/daemon/server.py:440-469 | the loop reports exactly the wedged rows, in the order of the listing, and fails those that are not current |
| Daemon.Server.HandleDoctor | src/gpuq/daemon/server.py:433-470 | the Doctor step and its report, in order |
| Daemon.Server.HandlePrune | src/gpuq/daemon/server.py:507-530 | the Prune step and its list |
| Daemon.Server.LeaseCheck | src/gpuq/daemon/server.py:533-535 | the LeaseAsk and LeasePoll steps: the request goes on to its eviction if and only if no job is current and no lease is held |
| Daemon.Server.LeaseGranted | src/gpuq/daemon/server.py:536-548 | the LeaseGrant step |
| Daemon.Server.LeaseRefused | src/gpuq/daemon/server.py:535 | the LeaseEvictRaised step |
| Daemon.Server.HandleRelease | src/gpuq/daemon/server.py:560-568 | the Release step; succeeds if and only if the id given is what the server has, none included |
| Daemon.Server.Woken | src/gpuq/daemon/server.py:103-113 | the Wake step |
| Daemon.Server.PollLease | src/gpuq/daemon/server.py:121-123 | the PollRelease step |
| Daemon.Server.Evicted | src/gpuq/daemon/server.py:126-156 | the EvictReturned step, with log files that open or not |
| Daemon.Server.Crashed | src/gpuq/daemon/server.py:114-119 | the EvictRaised step |
| Daemon.Server.StartMirror | src/gpuq/daemon/server.py:136-143 | the MirrorStarted step |
| Daemon.Server.ChildStarted | src/gpuq/daemon/runner.py:25-31 | the ChildSpawned step |
| Daemon.Server.SawPid | src/gpuq/daemon/server.py:157-160 | the PidSeen step |
| Daemon.Server.PumpLine | src/gpuq/daemon/runner.py:33-38 | the Appended step |
| Daemon.Server.RunTaskOver | src/gpuq/daemon/server.py:162-167 | the RunEnded step: the exit code, or -1 for a run that raised, is what the scheduler will finish with |
| Daemon.Server.MirrorTurn | src/gpuq/daemon/server.py:136-141 | the MirrorTook step |
| Daemon.Server.FinishJob | src/gpuq/daemon/server.py:170-191 | the Finished step |
| Daemon.Server.Reconcile | src/gpuq/daemon/server.py:97-99 | the loop fails exactly the rows that were starting or running |
| Daemon.Reopen | src/gpuq/daemon/server.py:71-80 | a new server on the old tables and files: those are as they were, everything in memory is initial |
| Daemon.Restart | src/gpuq/daemon/server.py:71-99 | reopening and reconciling is the CrashRestart step; the log directories and the leases are as they were |
| Daemon.Perform | src/gpuq/daemon/server.py:101-568 | whichever step is enabled, the method for it leaves the state the machine computes; but for a crash every client keeps its subscription |
| Daemon.Play | src/gpuq/daemon/server.py:101-568 | any run can be played on the objects, from a new server to the run's last state |
| Estimates.LatestAreLatest | src/gpuq/daemon/queue.py:34-43 | no sample left out finished after one that was kept, and none is left out while there is room |
| Estimates.RecentMean | src/gpuq/daemon/queue.py:29-54 | the loop returns the mean of the sampled runtimes, and none exactly when there are fewer than three |
| Estimates.MeanForExactly | src/gpuq/daemon/server.py:397-402 | the mean is that of the ten latest samples of the tag, with fewer than three of them that of the ten latest of all jobs, and none when these are fewer than three, too |
| Estimates.SampledExactly | src/gpuq/daemon/queue.py:34-41 | in reachable states the samples are exactly the done rows, with the tag if one is given |
| Estimates.MeanIsBetween | src/gpuq/daemon/queue.py:52-54 | the mean lies between any bounds of the samples, so between the smallest and the largest |
| Estimates.MeanIsPositive | src/gpuq/daemon/queue.py:34-54 | in reachable states every mean is positive |
| Estimates.ComputeEta | src/gpuq/daemon/server.py:397-417 | the branches compute the mean with its fallback, what is left of the current job, and one mean for each job ahead |
| Estimates.EtaIsOrdered | src/gpuq/daemon/server.py:413-417 | never negative; the first in line starts when the current job is over, and each place back is one mean later |
| Estimates.EqualRuntimes | src/gpuq/daemon/server.py:416 | a serial queue of jobs that take the mean pops the i-th i means after it is free |
| Estimates.EtaIsSimulation | src/gpuq/daemon/server.py:397-417 | when the jobs ahead take the mean, the estimate is the start in the simulated serial queue if and only if no eviction is going on, no lease outlasts the current job, and that job's row was not pruned before its time was up |
| Clock.FieldsAreTime | src/gpuq/daemon/server.py:25-26 | comparing year, month, day and so on in turn is comparing points on the time line, leap years included |
| Clock.TailOrder | src/gpuq/daemon/server.py:25-26 | a fraction that is left out because it is zero sorts first |
| Clock.TextOrder | src/gpuq/daemon/server.py:25-26 | the order of the texts is the order of the fields |
| Clock.TextOrderIsTimeOrder | src/gpuq/state.py:162-165 | for all years 1 to 9999 the stored texts sort exactly as the instants do, and are equal only for the same instant |
| Clock.EveryStampHasText | src/gpuq/daemon/server.py:25-26 | every stamp of those years is the time of exactly one instant, so texts and stamps sort alike |
| Scalars.StringRoundTrip | src/gpuq/protocol.py:144-149 | a string literal, escapes and surrogates included, reads back as the string and ends at its own quote, unless a high surrogate stands right before a low one |
| Scalars.ReadIsTidy | src/gpuq/protocol.py:148-149 | no string that is read has a high surrogate right before a low one: they were joined |
| Scalars.NumberRoundTrip | src/gpuq/protocol.py:144-149 | the scanner takes exactly the number that was written, and refuses integers of more than 4300 digits |
| Json.RoundTrip | src/gpuq/protocol.py:144-149 | printing and reading a well-formed value is the identity, whatever follows in the text |
| Json.LoadedIsWellFormed | src/gpuq/protocol.py:148-149 | whatever is read is well-formed: dicts without repeated keys, numbers that are numbers, tidy strings |
| Json.LoadsPrintedExactly | src/gpuq/protocol.py:144-149 | a value survives being printed and read if and only if it is well-formed |
| Json.SurrogatesJoin | src/gpuq/protocol.py:144-149 | the string of the two surrogates U+D800 and U+DC00 comes back as the one character U+10000 |
| Json.PrintedIsPlain | src/gpuq/protocol.py:144 | a printed value is printable ASCII, so it contains no newline |
| Json.FrameOff | src/gpuq/daemon/server.py:201 | reading one line takes off exactly the first frame and leaves the rest |
| Protocol.EncodeRequest | src/gpuq/protocol.py:140-144 | updating the payload dict writes the tag and then each field under its wire name, with no key lost |
| Protocol.DecodeRequest | src/gpuq/protocol.py:147-161 | the renames in place compute the decoding function, for every error as well |
| Protocol.EncodeEvent | src/gpuq/protocol.py:216-219 | the same for events |
| Protocol.TablesAgree | src/gpuq/protocol.py:122-137 | the tag tables are inverse to each other on each side |
| Protocol.FieldsAreApart | src/gpuq/protocol.py:17-201 | in all 18 classes no two fields share a wire name, none is called like a tag, and events need no renaming |
| Protocol.KwargsFind | src/gpuq/protocol.py:156-160 | after the renames a field has the value under its wire name, else the one under its attribute name |
| Protocol.DecodesExactly | src/gpuq/protocol.py:147-161 | any text is accepted if and only if it is an object with a known tag and every field without default; the record is then fixed field by field |
| Protocol.DictReads | src/gpuq/protocol.py:222-231 | the same for the dict of a request or an event |
| Protocol.ExtraKeysAreIgnored | src/gpuq/protocol.py:243-245 | any object that contains the encoded keys, in any order and with any others, decodes to the record |
| Protocol.DecodeEncoded | src/gpuq/protocol.py:140-161 | decoding an encoded line returns the original, for all requests and events, if and only if JSON can carry its values |
| Protocol.KeywordsTranslated | src/gpuq/protocol.py:140-144 | on the wire an attach request says `from` and a submit request says `next`, with the values of `from_` and `next_` |
| Protocol.SurrogatesAreNotCarried | src/gpuq/protocol.py:140-161 | a request whose id is that string does not come back |
| Protocol.DecodedPassesOn | src/gpuq/protocol.py:140-161 | whatever was decoded can be encoded again, and decodes to the same |
| Protocol.RefusalsExactly | src/gpuq/protocol.py:147-155 | a refusal is a ProtocolError if and only if the text is no JSON, or an object whose tag is a scalar that names no class |
| Protocol.MalformedEscapes | src/gpuq/protocol.py:10-11 | two malformed frames, a list and a NaN, that are not answered with ProtocolError |
| Protocol.StreamRoundTrip | src/gpuq/protocol.py:216-231 | any sequence of records, written and split at newlines, decodes to the same sequence |

## Left out

- Sockets, `drain`, connection teardown and reconnects: a client is the sequence of events it is sent.
- The child process, pids and the waiting times in runner.py: the child is an arbitrary source of lines and an arbitrary exit code, so exclusion is about the daemon's state and not about orphaned processes.
- `Runner.signal` returning early when the process is gone, and delivery of signals: only which runner is told is modelled.
- SQLite: the job table is a map with autocommit writes; schema, migrations, JSON columns and 64-bit overflow of priorities are not modelled.
- Ties in `(priority, submitted_at)`: SQL leaves them open, the model breaks them by id, and runs have none because submission stamps strictly increase.
- Wall clocks that jump: every time stamp of a run is later than the one before.
- The clock readings within one step, such as those of the row and of the event when a run starts, are one reading.
- `new_job_id`, `new_lease_id`: ids are numbers, fresh and never used twice.
- A state name that does not exist, as the `state` argument of `ps` or `find`: there a state is one of the six. The state lists of `ps`, `find` and `prune` may hold any word.
- Types of request fields: the program checks none, the wire model accepts any value, and the daemon's model takes a request with the types its class declares. A priority that is a text is accepted by the program, and the next `--next` or bump fails at `top + 1`; this is not part of the model.
- Faults of store writes, log writes and log close; `evict`, `open` and `run` may fail.
- The two tasks made by `_run_job` first run in the order in which they were made: the mirror registers before the child is spawned.
- `stop()`: a shutdown is a crash, possibly after a run that ended.
- `_handle_ps`, `_handle_show`, `evict_ollama`, `restore_ollama` and `ollama.restore`: they only read, or change nothing that is modelled; ollama.py is eviction that returns an arbitrary list or raises.
- Following a job that is already terminal: nothing is published to it any more, so no end of that stream is claimed.
- The value of a number: the model keeps a number as its literal text, so two numbers are equal when their texts are, NaN included.
- Delivery.DoctorReportsExactly: "no output" is read off the index; the code reads the size of combined.log, which is line-buffered, so a last line without newline can be in the index while that file is still empty, and doctor then reports the job.
- Protocol.DecodesExactly: nesting so deep that Python's recursion limit stops the reader is not modelled, nor are frames beyond the reader's line limit or bytes that are not UTF-8, which never reach `decode_request`.
- IndexFile.ReadFile: starts from the raw lines that iterating over the file yields; universal newlines play no part, since what is written is printable ASCII.
- Floating point: durations and means are real numbers.
- cli.py, lease.py, paths.py, ids.py, main.py: user interface, client wrappers, paths and process setup.

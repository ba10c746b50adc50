/** The daemon as a state machine.

    All tasks share one asyncio loop, so they interleave only where one of them suspends.  A Step is one
    stretch of code between two suspensions (server.py, queue.py, logs.py, runner.py), and Next is what
    it does to the durable tables, the in-memory fields and the suspended coroutines.  A crash followed
    by a restart is a step too.  The choices of the outside world (requests, ids, clock readings, what
    eviction finds, what the child writes, when it exits) are the step's arguments, and Enabled says when
    a stretch can run.  Class Server of module Daemon does the same steps on objects. */
module Machine {
  import opened Common
  import opened Jobs
  import opened Logs
  import opened Events
  import opened Prune

  type TaskId = nat        // a connection handler
  type LeaseId = nat

  /** The program's Runner object, with the job it was made for. */
  datatype Runner = Runner(owner: JobId)

  datatype Signal = Term | Kill

  /** How far `_run_job` has come once eviction is over. */
  datatype Stage =
    | Created                                          // both tasks made, neither has run
    | Listening                                        // the mirror has registered its queue
    | Spawned                                          // the child exists, the pumps are running
    | Draining(rc: int, clean: bool, orphan: bool)     // run task over, eof sent, awaiting the mirror

  /** Where the scheduler task is suspended. */
  datatype Pc =
    | Idle                                             // notify.wait
    | AwaitRelease                                     // the lease poll
    | Evicting(job: JobId)                             // ollama.evict, inside _run_job
    | Executing(job: JobId, stage: Stage)

  datatype LeaseTask = Polling | EvictingFirst
  datatype CancelWait = CancelWait(job: JobId, killed: bool)
  datatype LeaseRow = LeaseRow(granted: Stamp, released: Option<Stamp>)

  /** How `await run_task` came back; after a pump failure the other pump may still be alive. */
  datatype RunEnd = Exited(rc: int) | Raised(orphan: bool)

  datatype State = State(
    // durable
    rows: Table,
    leases: map<LeaseId, LeaseRow>,
    disk: map<JobId, Dir>,
    // fields of the server and its parts
    notify: bool,
    current: Option<JobId>,
    runner: Option<Runner>,
    leaseHeld: bool,
    leaseId: Option<LeaseId>,
    feeds: map<JobId, Feed>,
    waiter: Option<seq<Item>>,                         // the mirror's queue, while it is registered
    // suspended coroutines
    pc: Pc,
    leasing: map<TaskId, LeaseTask>,
    cancels: map<TaskId, CancelWait>,
    // history, never read by the program
    clock: Stamp,
    used: set<JobId>,
    lost: map<JobId, seq<Line>>)                       // lines written after the mirror had stopped

  function Init(): State
  {
    State(map[], map[], map[], false, None, None, false, None, map[], None, Idle, map[], map[], 0, {}, map[])
  }

  datatype Step =
    | Submit(id: JobId, work: Work, priority: int, next: bool, parent: Option<JobId>, now: Stamp)
    | Retry(id: JobId, original: JobId, force: bool, now: Stamp)
    | Bump(id: JobId)
    | Cancel(task: TaskId, id: JobId, signal: Signal, now: Stamp)
    | CancelPoll(task: TaskId, expired: bool)
    | Doctor(fix: bool, ids: set<JobId>, minAge: int, alive: set<int>, now: Stamp)
    | Prune(states: seq<StateName>, keepTag: string, cutoff: Stamp, dryRun: bool)
    | LeaseAsk(task: TaskId)
    | LeasePoll(task: TaskId)
    | LeaseGrant(task: TaskId, lid: LeaseId, now: Stamp)
    | LeaseEvictRaised(task: TaskId)
    | Release(claimed: Option<LeaseId>, now: Stamp)
    | Wake(now: Stamp)
    | PollRelease
    | EvictReturned(models: seq<string>, opens: bool, now: Stamp)
    | EvictRaised(now: Stamp)
    | MirrorStarted
    | ChildSpawned
    | PidSeen(pid: int)
    | Appended(line: Line)
    | RunEnded(how: RunEnd)
    | MirrorTook
    | Finished(now: Stamp)
    | CrashRestart(now: Stamp)

  /** The steps of connection handlers; the others are those of the scheduler and its tasks, and the crash. */
  predicate ByHandler(e: Step)
  {
    || e.Submit? || e.Retry? || e.Bump? || e.Cancel? || e.CancelPoll? || e.Doctor? || e.Prune?
    || e.LeaseAsk? || e.LeasePoll? || e.LeaseGrant? || e.LeaseEvictRaised? || e.Release?
  }

  /** Nothing moved on the way from the child to the clients, and no id was taken. */
  predicate SameLogs(s: State, t: State)
  {
    t.feeds == s.feeds && t.disk == s.disk && t.waiter == s.waiter && t.lost == s.lost && t.used == s.used
  }

  predicate SameFiles(s: State, t: State) { t.disk == s.disk && t.lost == s.lost }

  // ---- submit, retry, bump -------------------------------------------------------------------------

  function NewRow(work: Work, priority: int, parent: Option<JobId>, now: Stamp): Row
  {
    Row(work, priority, JobState.Queued, None, None, now, None, None, parent)
  }

  function Enqueue(s: State, id: JobId, j: Row): (t: State)
    ensures t.pc == s.pc && t.rows.Keys >= s.rows.Keys
    ensures t.notify
    ensures t.feeds == s.feeds && SameFiles(s, t)
  {
    s.(rows := s.rows[id := j], notify := true, clock := j.submitted, used := s.used + {id})
  }

  function DoSubmit(s: State, id: JobId, work: Work, priority: int, next: bool, parent: Option<JobId>,
                    now: Stamp): (t: State)
    ensures t.pc == s.pc && t.rows.Keys >= s.rows.Keys
    ensures t.feeds == s.feeds && SameFiles(s, t)
  {
    Enqueue(s, id, NewRow(work, if next then FrontPriority(s.rows, None) else priority, parent, now))
  }

  predicate Retryable(s: State, id: JobId, force: bool)
  {
    id in s.rows && (s.rows[id].state.Failed? || s.rows[id].state.Cancelled?
                     || (force && s.rows[id].state.Done?))
  }

  function DoRetry(s: State, id: JobId, original: JobId, force: bool, now: Stamp): (t: State)
    ensures t.pc == s.pc && t.rows.Keys >= s.rows.Keys
    ensures t.feeds == s.feeds && SameFiles(s, t)
  {
    if Retryable(s, original, force) then
      var r := s.rows[original];
      Enqueue(s, id, NewRow(r.work, r.priority, Some(original), now))
    else s
  }

  function DoBump(s: State, id: JobId): (t: State)
    ensures t.notify == s.notify && t.pc == s.pc && t.rows.Keys == s.rows.Keys
    ensures t.feeds == s.feeds && SameFiles(s, t)
  {
    s.(rows := if id in QueuedIds(s.rows) then Bumped(s.rows, id) else s.rows)
  }

  // ---- cancel --------------------------------------------------------------------------------------

  datatype Outcome =
    | ReplyOk
    | ReplyUnknown
    | ReplyTerminal
    | ReplyNotCurrent
    | ReplyWedged
    | Signalled(target: JobId, signal: Signal)     // sent through _current_runner; goes on waiting
    | KeepWaiting
    | HandlerError                                 // _current_runner was None

  function IsTerminal(s: State, id: JobId): bool { id in s.rows && s.rows[id].state.Terminal() }

  function CancelOutcome(s: State, id: JobId, signal: Signal): Outcome
  {
    if id !in s.rows then ReplyUnknown
    else if s.rows[id].state.Queued? then ReplyOk
    else if s.rows[id].state.Active() && s.current == Some(id) then
      if s.runner.Some? then Signalled(s.runner.value.owner, signal) else HandlerError
    else if s.rows[id].state.Terminal() then ReplyTerminal
    else ReplyNotCurrent
  }

  function WaitsWith(s: State, task: TaskId, id: JobId, signal: Signal): map<TaskId, CancelWait>
  {
    if CancelOutcome(s, id, signal).Signalled? then s.cancels[task := CancelWait(id, signal.Kill?)] else s.cancels
  }

  function DoCancel(s: State, task: TaskId, id: JobId, signal: Signal, now: Stamp): (t: State)
    ensures t.notify == s.notify && t.pc == s.pc && t.rows.Keys == s.rows.Keys
    ensures t.feeds == if id !in QueuedIds(s.rows) then s.feeds
                       else Published(Published(s.feeds, id, EndEv(Cancelled, None)), id, Closed)
    ensures SameFiles(s, t)
  {
    var queued := id in QueuedIds(s.rows);
    s.(rows := if queued then Updated(s.rows, id, Cancelled, None, None, None, Some(now)) else s.rows,
       clock := if queued then now else s.clock,
       feeds := if queued then Published(Published(s.feeds, id, EndEv(Cancelled, None)), id, Closed) else s.feeds,
       cancels := WaitsWith(s, task, id, signal))
  }

  /** One look of `_wait_terminal`; when the deadline has passed, what the handler does next. */
  function PollOutcome(s: State, c: CancelWait, expired: bool): Outcome
  {
    if IsTerminal(s, c.job) then ReplyOk
    else if !expired then KeepWaiting
    else if c.killed then ReplyWedged
    else if s.runner.Some? then Signalled(s.runner.value.owner, Kill)
    else HandlerError
  }

  function WaitsAfter(s: State, task: TaskId, expired: bool): map<TaskId, CancelWait>
    requires task in s.cancels
  {
    match PollOutcome(s, s.cancels[task], expired)
    case KeepWaiting => s.cancels
    case Signalled(_, _) => s.cancels[task := CancelWait(s.cancels[task].job, true)]
    case _ => s.cancels - {task}
  }

  function DoCancelPoll(s: State, task: TaskId, expired: bool): (t: State)
    requires task in s.cancels
    ensures t.rows == s.rows && t.notify == s.notify && t.pc == s.pc
    ensures SameLogs(s, t)
  {
    s.(cancels := WaitsAfter(s, task, expired))
  }

  // ---- doctor, prune -------------------------------------------------------------------------------

  datatype Wedge = NoPid | DeadPid

  function WedgeSignature(r: Row, combined: string, now: Stamp, minAge: int, alive: set<int>): Option<Wedge>
  {
    if !r.state.Running? || r.started.None? then None
    else if now - r.started.value < minAge then None
    else if combined != "" then None
    else if r.pid.None? then Some(NoPid)
    else if r.pid.value !in alive then Some(DeadPid)
    else None
  }

  function CombinedLog(s: State, id: JobId): string { if id in s.disk then s.disk[id].combined else "" }

  predicate IsWedged(s: State, id: JobId, ids: set<JobId>, minAge: int, alive: set<int>, now: Stamp)
  {
    && id in s.rows && (ids == {} || id in ids)
    && WedgeSignature(s.rows[id], CombinedLog(s, id), now, minAge, alive).Some?
  }

  /** The rows `doctor` reports: running, asked for, and wedged. */
  function Wedged(s: State, ids: set<JobId>, minAge: int, alive: set<int>, now: Stamp): set<JobId>
  {
    set k | k in InState(s.rows, Running) && IsWedged(s, k, ids, minAge, alive, now)
  }

  function Fixable(s: State, ids: set<JobId>, minAge: int, alive: set<int>, now: Stamp): set<JobId>
  {
    set k | k in Wedged(s, ids, minAge, alive, now) && s.current != Some(k)
  }

  function DoDoctor(s: State, fix: bool, ids: set<JobId>, minAge: int, alive: set<int>, now: Stamp): (t: State)
    ensures t.notify == s.notify && t.pc == s.pc && t.rows.Keys == s.rows.Keys
    ensures t.feeds == s.feeds && SameFiles(s, t)
  {
    s.(rows := if fix then FailRows(s.rows, Fixable(s, ids, minAge, alive, now), now) else s.rows, clock := now)
  }

  function DoPrune(s: State, states: seq<StateName>, keepTag: string, cutoff: Stamp, dryRun: bool): (t: State)
    ensures t.notify == s.notify && t.pc == s.pc
    ensures t.feeds == s.feeds
  {
    var gone := Victims(s.rows, states, keepTag, cutoff);
    s.(rows := if dryRun then s.rows else s.rows - gone, disk := if dryRun then s.disk else s.disk - gone)
  }

  // ---- leases --------------------------------------------------------------------------------------

  predicate Free(s: State) { s.current.None? && !s.leaseHeld }

  function DoLeaseCheck(s: State, task: TaskId): (t: State)
    ensures t.rows == s.rows && t.notify == s.notify && t.pc == s.pc
    ensures SameLogs(s, t)
  {
    s.(leasing := s.leasing[task := if Free(s) then EvictingFirst else Polling])
  }

  function DoLeaseGrant(s: State, task: TaskId, lid: LeaseId, now: Stamp): (t: State)
    ensures t.rows == s.rows && t.notify == s.notify && t.pc == s.pc
    ensures SameLogs(s, t)
  {
    s.(leases := s.leases[lid := LeaseRow(now, None)], leaseHeld := true, leaseId := Some(lid),
       leasing := s.leasing - {task}, clock := now)
  }

  /** The request's `lease_id` is not checked, and null equals the id the server has while it knows none. */
  function DoRelease(s: State, lid: Option<LeaseId>, now: Stamp): (t: State)
    ensures t.rows == s.rows && (s.notify ==> t.notify) && t.pc == s.pc
    ensures SameLogs(s, t)
  {
    var own := s.leaseId == lid;
    s.(leases := if own && lid.Some? && lid.value in s.leases
                 then s.leases[lid.value := s.leases[lid.value].(released := Some(now))] else s.leases,
       leaseHeld := s.leaseHeld && !own, leaseId := if own then None else s.leaseId,
       notify := s.notify || own, clock := if own then now else s.clock)
  }

  // ---- the scheduler -------------------------------------------------------------------------------

  function DoWake(s: State, now: Stamp): (t: State)
    ensures t.notify == (s.notify && (s.leaseHeld || QueuedIds(s.rows) != {}))
    ensures t.rows.Keys == s.rows.Keys
    ensures t.feeds == s.feeds && SameFiles(s, t)
  {
    var next := if s.leaseHeld then None else NextQueued(s.rows);
    s.(rows := if next.Some? then Updated(s.rows, next.value, Starting, None, None, Some(now), None) else s.rows,
       pc := if s.leaseHeld then AwaitRelease else if next.Some? then Evicting(next.value) else Idle,
       notify := s.notify && (s.leaseHeld || next.Some?),
       clock := if next.Some? then now else s.clock)
  }

  function DoPollRelease(s: State): (t: State)
    ensures SameLogs(s, t) && t.rows == s.rows
  {
    s.(pc := if s.leaseHeld then s.pc else Idle)
  }

  /** The `except` branch of the scheduler: the row fails and nothing is published. */
  function GiveUp(s: State, id: JobId, now: Stamp): (t: State)
    ensures t.notify == s.notify && t.pc == Idle && t.rows.Keys == s.rows.Keys
    ensures t.feeds == s.feeds && SameFiles(s, t)
  {
    s.(rows := FailRow(s.rows, id, now), pc := Idle, clock := now)
  }

  function DoEvictReturned(s: State, id: JobId, models: seq<string>, opens: bool, now: Stamp): (t: State)
    ensures t.rows == if opens then Updated(s.rows, id, Running, None, None, Some(now), None)
                      else FailRow(s.rows, id, now)
    ensures t.notify == s.notify && t.pc == if opens then Executing(id, Created) else Idle
    ensures var feeds := if models != [] then Published(s.feeds, id, EvictedEv(models)) else s.feeds;
            t.feeds == if opens then Published(feeds, id, RunningEv(now)) else feeds
  {
    var feeds := if models != [] then Published(s.feeds, id, EvictedEv(models)) else s.feeds;
    s.(disk := if !opens || id in s.disk then s.disk else s.disk[id := EMPTY_DIR],
       runner := if opens then Some(Runner(id)) else s.runner,
       current := if opens then Some(id) else s.current,
       waiter := if opens then None else s.waiter,
       rows := if opens then Updated(s.rows, id, Running, None, None, Some(now), None) else FailRow(s.rows, id, now),
       feeds := if opens then Published(feeds, id, RunningEv(now)) else feeds,
       pc := if opens then Executing(id, Created) else Idle, clock := now)
  }

  function DoAppended(s: State, id: JobId, l: Line): (t: State)
    ensures t.rows == s.rows && t.notify == s.notify && t.pc == s.pc
    ensures t.feeds == s.feeds
  {
    s.(disk := Logged(s.disk, id, l),
       waiter := if s.waiter.Some? then Some(s.waiter.value + [Got(l)]) else None,
       lost := if s.waiter.Some? then s.lost else s.lost[id := LostOf(s, id) + [l]])
  }

  function LostOf(s: State, id: JobId): seq<Line> { if id in s.lost then s.lost[id] else [] }

  function DoRunEnded(s: State, id: JobId, how: RunEnd): (t: State)
    ensures t.rows == s.rows && t.notify == s.notify
    ensures t.feeds == s.feeds && SameFiles(s, t)
  {
    s.(waiter := if s.waiter.Some? then Some(s.waiter.value + [Eof]) else None,
       pc := Executing(id, match how
                           case Exited(rc) => Draining(rc, true, false)
                           case Raised(orphan) => Draining(-1, false, orphan)))
  }

  function DoMirrorTook(s: State, id: JobId): (t: State)
    requires s.waiter.Some? && s.waiter.value != []
    ensures t.rows == s.rows && t.notify == s.notify && t.pc == s.pc
  {
    var item, rest := s.waiter.value[0], s.waiter.value[1..];
    s.(waiter := if item.Got? then Some(rest) else None,
       feeds := if item.Got? then Published(s.feeds, id, LogEv(item.line)) else s.feeds,
       lost := if item.Got? then s.lost else s.lost[id := LostOf(s, id) + Lines(rest)])
  }

  function Verdict(rc: int, clean: bool): JobState { if rc == 0 && clean then Done else Failed }

  function DoFinished(s: State, id: JobId, rc: int, clean: bool, now: Stamp): (t: State)
    ensures t.notify == s.notify && t.pc == Idle && t.rows.Keys == s.rows.Keys
    ensures SameFiles(s, t)
  {
    var end := Verdict(rc, clean);
    s.(runner := None, current := None, pc := Idle, clock := now,
       rows := Updated(s.rows, id, end, None, Some(rc), None, Some(now)),
       feeds := Published(Published(s.feeds, id, EndEv(end, Some(rc))), id, Closed))
  }

  /** Everything in memory is gone; the restart fails whatever was starting or running. */
  function DoCrashRestart(s: State, now: Stamp): (t: State)
    ensures t.rows.Keys == s.rows.Keys && t.pc == Idle && !t.notify
  {
    Init().(rows := FailRows(s.rows, ActiveIds(s.rows), now), leases := s.leases, disk := s.disk,
            clock := now, used := s.used, lost := s.lost)
  }

  // ---- steps ---------------------------------------------------------------------------------------

  predicate At(s: State, stage: Stage) { s.pc.Executing? && s.pc.stage == stage }

  predicate Enabled(s: State, e: Step)
  {
    match e
    case Submit(id, _, _, _, _, now) => id !in s.used && now > s.clock
    case Retry(id, _, _, now) => id !in s.used && now > s.clock
    case Bump(_) => true
    case Cancel(task, _, _, now) => task !in s.cancels && now > s.clock
    case CancelPoll(task, _) => task in s.cancels
    case Doctor(_, _, _, _, now) => now > s.clock
    case Prune(_, _, _, _) => true
    case LeaseAsk(task) => task !in s.leasing
    case LeasePoll(task) => task in s.leasing && s.leasing[task] == Polling
    case LeaseGrant(task, lid, now) =>
      task in s.leasing && s.leasing[task] == EvictingFirst && lid !in s.leases && now > s.clock
    case LeaseEvictRaised(task) => task in s.leasing && s.leasing[task] == EvictingFirst
    case Release(_, now) => now > s.clock
    case Wake(now) => s.pc.Idle? && s.notify && now > s.clock
    case PollRelease => s.pc.AwaitRelease?
    case EvictReturned(_, _, now) => s.pc.Evicting? && now > s.clock
    case EvictRaised(now) => s.pc.Evicting? && now > s.clock
    case MirrorStarted => At(s, Created)
    case ChildSpawned => At(s, Listening)              // tasks first run in the order they were made
    case PidSeen(_) => At(s, Spawned)
    case Appended(_) => At(s, Spawned) || (s.pc.Executing? && s.pc.stage.Draining? && s.pc.stage.orphan)
    case RunEnded(how) => At(s, Spawned) || (At(s, Listening) && how == Raised(false))
    case MirrorTook => s.pc.Executing? && s.waiter.Some? && s.waiter.value != []
    case Finished(now) => s.pc.Executing? && s.pc.stage.Draining? && s.waiter.None? && now > s.clock
    case CrashRestart(now) => now > s.clock
  }

  function Next(s: State, e: Step): State
    requires Enabled(s, e)
  {
    match e
    case Submit(id, work, priority, next, parent, now) => DoSubmit(s, id, work, priority, next, parent, now)
    case Retry(id, original, force, now) => DoRetry(s, id, original, force, now)
    case Bump(id) => DoBump(s, id)
    case Cancel(task, id, signal, now) => DoCancel(s, task, id, signal, now)
    case CancelPoll(task, expired) => DoCancelPoll(s, task, expired)
    case Doctor(fix, ids, minAge, alive, now) => DoDoctor(s, fix, ids, minAge, alive, now)
    case Prune(states, keepTag, cutoff, dryRun) => DoPrune(s, states, keepTag, cutoff, dryRun)
    case LeaseAsk(task) => DoLeaseCheck(s, task)
    case LeasePoll(task) => DoLeaseCheck(s, task)
    case LeaseGrant(task, lid, now) => DoLeaseGrant(s, task, lid, now)
    case LeaseEvictRaised(task) => s.(leasing := s.leasing - {task})
    case Release(claimed, now) => DoRelease(s, claimed, now)
    case Wake(now) => DoWake(s, now)
    case PollRelease => DoPollRelease(s)
    case EvictReturned(models, opens, now) => DoEvictReturned(s, s.pc.job, models, opens, now)
    case EvictRaised(now) => GiveUp(s, s.pc.job, now)
    case MirrorStarted => s.(waiter := Some([]), pc := Executing(s.pc.job, Listening))
    case ChildSpawned => s.(pc := Executing(s.pc.job, Spawned))
    case PidSeen(pid) => s.(rows := Updated(s.rows, s.pc.job, Running, Some(pid), None, None, None))
    case Appended(line) => DoAppended(s, s.pc.job, line)
    case RunEnded(how) => DoRunEnded(s, s.pc.job, how)
    case MirrorTook => DoMirrorTook(s, s.pc.job)
    case Finished(now) => DoFinished(s, s.pc.job, s.pc.stage.rc, s.pc.stage.clean, now)
    case CrashRestart(now) => DoCrashRestart(s, now)
  }

  /** A run from the empty daemon: states ss, and the steps es that lead from each to the next. */
  ghost predicate Run(ss: seq<State>, es: seq<Step>)
  {
    && |ss| == |es| + 1 && ss[0] == Init()
    && forall i :: 0 <= i < |es| ==> StepAt(ss, es, i)
  }

  ghost predicate StepAt(ss: seq<State>, es: seq<Step>, i: nat)
    requires i < |es| && |ss| == |es| + 1
  {
    Enabled(ss[i], es[i]) && ss[i + 1] == Next(ss[i], es[i])
  }

  /** One more step at the end of a run. */
  lemma Extend(ss: seq<State>, es: seq<Step>, e: Step) returns (ss': seq<State>, es': seq<Step>)
    requires Run(ss, es) && Enabled(ss[|es|], e)
    ensures Run(ss', es') && |es'| == |es| + 1 && ss'[|es'|] == Next(ss[|es|], e)
    ensures ss' == ss + [Next(ss[|es|], e)] && es' == es + [e]
  {
    ss', es' := ss + [Next(ss[|es|], e)], es + [e];
    forall i | 0 <= i < |es'| ensures StepAt(ss', es', i) {
      if i < |es| { assert StepAt(ss, es, i); }
    }
  }
}

/** The Server object of server.py, step by step.

    Each method is one stretch of code between two suspensions, run on the objects the daemon holds: the
    job table, the queue with its notify flag, the bus and the logs.  Its contract says that the state it
    leaves is the one module Machine computes, and method Play runs any run of the machine on the objects,
    call by call. */
module Daemon {
  import opened Common
  import opened Jobs
  import opened PriorityQueue
  import opened Logs
  import opened Events
  import opened Prune
  import opened Machine
  import opened Invariants
  import Estimates

  /** The `from` of an attach request; any other word asks for no history. */
  datatype From = FromStart | FromTail | FromNowhere

  /** What an attach request is sent of the log before it follows. */
  predicate Shown(log: seq<Line>, from: From, tail: int, history: seq<Line>)
  {
    match from
    case FromStart => history == log
    case FromTail =>
      if tail > 0 then |history| == (if tail < |log| then tail else |log|) && history == log[|log| - |history|..]
      else if -tail < |log| then history == log[-tail..]
      else history == []
    case FromNowhere => history == []
  }

  /** In any case the history is the end of the log. */
  lemma ShownIsEnd(log: seq<Line>, from: From, tail: int, history: seq<Line>)
    requires Shown(log, from, tail, history)
    ensures |history| <= |log| && log[..|log| - |history|] + history == log
  {
  }

  class Server {
    const jobs: JobRepo
    const queue: Queue
    const bus: Bus
    const logs: JobLogs
    var leases: map<LeaseId, LeaseRow>
    var current: Option<JobId>
    var runner: Option<Runner>
    var leaseHeld: bool
    var leaseId: Option<LeaseId>
    // suspended coroutines
    var pc: Pc
    var mirror: Option<Handle>                      // the queue the mirror task follows
    var leasing: map<TaskId, LeaseTask>
    var cancels: map<TaskId, CancelWait>
    // history
    ghost var clock: Stamp
    ghost var used: set<JobId>
    ghost var lost: map<JobId, seq<Line>>

    ghost predicate Valid()
      reads this, jobs, queue, bus, logs
    {
      && queue.repo == jobs && bus.Valid() && logs.Valid()
      && logs.waiters.Keys == (if mirror.Some? then {mirror.value} else {})
      && (pc.Executing? ==> logs.job == Some(pc.job))
      && (mirror.Some? ==> pc.Executing? && !pc.stage.Created?)
    }

    ghost function Abs(): State
      reads this, jobs, queue, bus, logs
    {
      State(jobs.rows, leases, logs.disk, queue.notify, current, runner, leaseHeld, leaseId, bus.feeds,
            if mirror.Some? && mirror.value in logs.waiters then Some(logs.waiters[mirror.value]) else None,
            pc, leasing, cancels, clock, used, lost)
    }

    constructor ()
      ensures Valid() && Abs() == Init()
      ensures fresh(jobs) && fresh(queue) && fresh(bus) && fresh(logs)
    {
      var repo := new JobRepo();
      jobs := repo;
      queue := new Queue(repo);
      bus := new Bus();
      logs := new JobLogs();
      leases, current, runner, leaseHeld, leaseId := map[], None, None, false, None;
      pc, mirror, leasing, cancels := Idle, None, map[], map[];
      clock, used, lost := 0, {}, map[];
    }

    // ---- submit, retry, bump -----------------------------------------------------------------------

    /** Subscribes to the new job from its first event on, inserts it, and replies with its place and the
        estimate made at the later clock reading `seen`. */
    method HandleSubmit(id: JobId, work: Work, priority: int, next: bool, parent: Option<JobId>, now: Stamp,
                        seen: Stamp)
      returns (position: Option<nat>, eta: Option<Estimates.Eta>, sub: Handle)
      requires Valid() && Enabled(Abs(), Submit(id, work, priority, next, parent, now))
      requires id !in jobs.rows
      modifies this, jobs, queue, bus
      ensures Valid() && Abs() == DoSubmit(old(Abs()), id, work, priority, next, parent, now)
      ensures position == PositionOf(jobs.rows, id)
      ensures eta == Estimates.EtaOf(jobs.rows, current, work.tag, position, seen)
      ensures sub !in old(bus.subs) && bus.subs == old(bus.subs)[sub := Sub(id, [])] && bus.Stay()
      ensures bus.since == old(bus.since)[sub := |FeedOf(old(bus.feeds), id)|]
    {
      sub := bus.Subscribe(id);
      assert bus.Stay();
      Submitted(id, work, priority, next, parent, now);
      position := queue.Position(id);
      eta := Estimates.ComputeEta(jobs.rows, current, work.tag, position, seen);
    }

    method Submitted(id: JobId, work: Work, priority: int, next: bool, parent: Option<JobId>, now: Stamp)
      requires Valid() && id !in jobs.rows
      modifies jobs, queue, `clock, `used
      ensures Valid() && Abs() == DoSubmit(old(Abs()), id, work, priority, next, parent, now)
    {
      var prio := Priority(priority, next);
      Insert(id, NewRow(work, prio, parent, now));
    }

    /** A detached submitter gives its subscription back. */
    method Detach(sub: Handle)
      requires Valid()
      modifies bus
      ensures Valid() && Abs() == old(Abs()) && bus.subs == old(bus.subs) - {sub}
    {
      bus.Unsubscribe(sub);
    }

    /** Subscribe, read what the request asks for before anything else can run, and give the subscription
        back unless the client follows. */
    method HandleAttach(id: JobId, from: From, tail: int, follow: bool)
      returns (history: seq<Line>, sub: Option<Handle>)
      requires Valid()
      modifies bus
      ensures Valid() && Abs() == old(Abs())
      ensures Shown(Index(logs.disk, id), from, tail, history)
      ensures sub.Some? <==> follow
      ensures bus.Stay() && (follow ==> sub.value !in old(bus.subs))
      ensures follow ==> bus.subs == old(bus.subs)[sub.value := Sub(id, [])]
                         && bus.since == old(bus.since)[sub.value := |FeedOf(bus.feeds, id)|]
      ensures !follow ==> bus.subs == old(bus.subs)
    {
      var h := bus.Subscribe(id);
      history := History(id, from, tail);
      sub := Some(h);
      if !follow {
        assert bus.subs - {h} == old(bus.subs);
        bus.Unsubscribe(h);
        sub := None;
      }
    }

    method History(id: JobId, from: From, tail: int) returns (history: seq<Line>)
      ensures Shown(Index(logs.disk, id), from, tail, history)
    {
      history := [];
      if id in logs.disk && !from.FromNowhere? {
        if from.FromStart? { history := logs.ReadAll(id); } else { history := logs.Tail(id, tail); }
      }
    }

    method Insert(id: JobId, row: Row)
      requires Valid() && id !in jobs.rows
      modifies jobs, queue, `clock, `used
      ensures Valid() && Abs() == Enqueue(old(Abs()), id, row)
    {
      queue.Enqueue(id, row);
      clock, used := row.submitted, used + {id};
    }

    method Priority(priority: int, next: bool) returns (p: int)
      ensures p == if next then FrontPriority(jobs.rows, None) else priority
    {
      if !next { return priority; }
      var top := MaxQueued(jobs.rows, None);
      p := if top.Some? then top.value + 1 else 1;
    }

    method HandleRetry(id: JobId, original: JobId, force: bool, now: Stamp) returns (ok: bool)
      requires Valid() && Enabled(Abs(), Retry(id, original, force, now)) && id !in jobs.rows
      modifies this, jobs, queue
      ensures Valid() && Abs() == DoRetry(old(Abs()), id, original, force, now)
      ensures ok <==> original in old(jobs.rows) && (old(jobs.rows)[original].state in {Failed, Cancelled}
                                                     || (force && old(jobs.rows)[original].state == Done))
    {
      if original !in jobs.rows { return false; }
      var r := jobs.rows[original];
      var allowed := if force then {Failed, Cancelled, Done} else {Failed, Cancelled};
      if r.state !in allowed { return false; }
      Insert(id, NewRow(r.work, r.priority, Some(original), now));
      ok := true;
    }

    method HandleBump(id: JobId) returns (ok: bool)
      requires Valid()
      modifies jobs
      ensures Valid() && Abs() == DoBump(old(Abs()), id)
      ensures ok <==> id in QueuedIds(old(jobs.rows))
    {
      ok := jobs.Bump(id);
    }

    // ---- cancel ------------------------------------------------------------------------------------

    method AnnounceEnd(id: JobId, state: JobState, exitCode: Option<int>)
      requires Valid()
      modifies bus
      ensures Valid() && bus.Stay()
      ensures Abs() == old(Abs()).(feeds := Published(Published(old(bus.feeds), id, EndEv(state, exitCode)), id,
                                                      Event.Closed))
    {
      bus.Publish(id, EndEv(state, exitCode));
      bus.Close(id);
    }

    method CancelQueued(id: JobId, now: Stamp)
      requires Valid() && id in QueuedIds(jobs.rows)
      modifies `clock, jobs, bus
      ensures Valid() && bus.Stay()
      ensures Abs() == old(Abs()).(
        rows := Updated(old(jobs.rows), id, Cancelled, None, None, None, Some(now)), clock := now,
        feeds := Published(Published(old(bus.feeds), id, EndEv(Cancelled, None)), id, Event.Closed))
    {
      var _ := queue.Cancel(id, now);
      clock := now;
      AnnounceEnd(id, Cancelled, None);
    }

    method HandleCancel(task: TaskId, id: JobId, signal: Signal, now: Stamp) returns (reply: Outcome)
      requires Valid() && Enabled(Abs(), Cancel(task, id, signal, now))
      modifies this, jobs, bus
      ensures Valid() && bus.Stay() && reply == CancelOutcome(old(Abs()), id, signal)
      ensures Abs() == DoCancel(old(Abs()), task, id, signal, now)
    {
      if id !in jobs.rows { return ReplyUnknown; }
      var r := jobs.rows[id];
      if r.state == Queued {
        CancelQueued(id, now);
        return ReplyOk;
      }
      if r.state.Active() && current == Some(id) {
        reply := SignalRunner(task, id, signal);
        return;
      }
      if r.state.Terminal() { return ReplyTerminal; }
      reply := ReplyNotCurrent;
    }

    /** The signal goes to the process, and the handler begins to wait. */
    method SignalRunner(task: TaskId, id: JobId, signal: Signal) returns (reply: Outcome)
      requires Valid()
      modifies `cancels
      ensures Valid() && reply == if runner.Some? then Signalled(runner.value.owner, signal) else HandlerError
      ensures Abs() == old(Abs()).(cancels := if runner.Some? then old(cancels)[task := CancelWait(id, signal.Kill?)]
                                              else old(cancels))
    {
      if runner.None? { return HandlerError; }
      cancels := cancels[task := CancelWait(id, signal == Kill)];
      reply := Signalled(runner.value.owner, signal);
    }

    /** One turn of the waiting loop; the reply, if there is one, ends the handler. */
    method WaitTerminal(task: TaskId, expired: bool) returns (reply: Outcome)
      requires Valid() && Enabled(Abs(), CancelPoll(task, expired))
      modifies `cancels
      ensures Valid() && reply == PollOutcome(old(Abs()), old(cancels)[task], expired)
      ensures Abs() == DoCancelPoll(old(Abs()), task, expired)
      ensures var c, over := old(cancels)[task], IsTerminal(Abs(), old(cancels)[task].job);
        && (reply.ReplyOk? <==> over) && (reply.KeepWaiting? <==> !over && !expired)
        && (reply.ReplyWedged? <==> !over && expired && c.killed)
    {
      var c := cancels[task];
      if c.job in jobs.rows && jobs.rows[c.job].state.Terminal() {
        cancels := cancels - {task};
        return ReplyOk;
      }
      if !expired { return KeepWaiting; }
      reply := Escalate(task, c);
    }

    /** The time is up: after the grace period, or after the kill that followed it. */
    method Escalate(task: TaskId, c: CancelWait) returns (reply: Outcome)
      requires Valid() && task in cancels && cancels[task] == c && !IsTerminal(Abs(), c.job)
      modifies `cancels
      ensures Valid() && reply == PollOutcome(old(Abs()), c, true)
      ensures !reply.ReplyOk? && !reply.KeepWaiting? && (reply.ReplyWedged? <==> c.killed)
      ensures Abs() == DoCancelPoll(old(Abs()), task, true)
    {
      if c.killed {
        cancels := cancels - {task};
        return ReplyWedged;
      }
      if runner.None? {
        cancels := cancels - {task};
        return HandlerError;
      }
      cancels := cancels[task := CancelWait(c.job, true)];
      reply := Signalled(runner.value.owner, Kill);
    }

    // ---- doctor, prune -----------------------------------------------------------------------------

    /** The loop over the running rows: report what is wedged, fix what is not the current job. */
    method Examine(found: seq<JobId>, fix: bool, ids: set<JobId>, minAge: int, alive: set<int>, now: Stamp)
      returns (wedged: seq<JobId>, ghost fixed: set<JobId>)
      requires found == Order(jobs.rows, InState(jobs.rows, Running))
      modifies jobs
      ensures wedged == Order(old(jobs.rows), Wedged(old(Abs()), ids, minAge, alive, now))
      ensures forall k :: k in fixed <==> fix && k in wedged && current != Some(k)
      ensures jobs.rows == FailRows(old(jobs.rows), fixed, now)
    {
      ghost var s, want := Abs(), InState(jobs.rows, Running);
      ghost var bad := Wedged(s, ids, minAge, alive, now);
      ghost var well := want - bad;
      assert want - well == bad;
      wedged, fixed := [], {};
      FailNothing(s.rows, now);
      for i := 0 to |found|
        invariant wedged == Without(found[..i], well)
        invariant forall k :: k in fixed <==> fix && k in wedged && current != Some(k)
        invariant jobs.rows == FailRows(s.rows, fixed, now)
      {
        var j := found[i];
        OnceInOrder(s.rows, want, i);
        WithoutNext(found, i, well);
        var report;
        report, fixed := ExamineRow(j, fix, ids, minAge, alive, now, s.rows, fixed);
        assert report <==> j in bad;
        if report { wedged := wedged + [j]; }
      }
      assert found[..|found|] == found;
      WithoutIsOrder(s.rows, want, well);
    }

    /** One row of the loop: is it wedged, and if it is to be fixed and is not the current job, it fails. */
    method ExamineRow(id: JobId, fix: bool, ids: set<JobId>, minAge: int, alive: set<int>, now: Stamp,
                      ghost t: Table, ghost fixed: set<JobId>) returns (bad: bool, ghost fixed': set<JobId>)
      requires id in t && id !in fixed && jobs.rows == FailRows(t, fixed, now)
      modifies jobs
      ensures bad <==>
        && (ids == {} || id in ids)
        && WedgeSignature(t[id], if id in logs.disk then logs.disk[id].combined else "", now, minAge, alive).Some?
      ensures fixed' == if bad && fix && current != Some(id) then fixed + {id} else fixed
      ensures jobs.rows == FailRows(t, fixed', now)
    {
      fixed' := fixed;
      assert jobs.rows[id] == t[id];
      if ids != {} && id !in ids { return false, fixed; }
      var combined := if id in logs.disk then logs.disk[id].combined else "";
      bad := WedgeSignature(jobs.rows[id], combined, now, minAge, alive).Some?;
      if bad && fix && current != Some(id) {
        jobs.Fail(id, t, fixed, now);
        fixed' := fixed + {id};
      }
    }

    method HandleDoctor(fix: bool, ids: set<JobId>, minAge: int, alive: set<int>, now: Stamp)
      returns (wedged: seq<JobId>)
      requires Valid() && Enabled(Abs(), Doctor(fix, ids, minAge, alive, now))
      modifies jobs, `clock
      ensures Valid() && Abs() == DoDoctor(old(Abs()), fix, ids, minAge, alive, now)
      ensures wedged == Order(old(jobs.rows), Wedged(old(Abs()), ids, minAge, alive, now))
    {
      var found := jobs.Find(Some(Running), [], "", None);
      assert Matching(jobs.rows, Some(Running), [], "", None) == InState(jobs.rows, Running);
      ghost var fixed;
      wedged, fixed := Examine(found, fix, ids, minAge, alive, now);
      FailNothing(old(jobs.rows), now);
      assert fixed == if fix then Fixable(old(Abs()), ids, minAge, alive, now) else {};
      clock := now;
    }

    method HandlePrune(states: seq<StateName>, keepTag: string, cutoff: Stamp, dryRun: bool)
      returns (deleted: seq<JobId>)
      requires Valid()
      modifies jobs, logs
      ensures Valid() && Abs() == DoPrune(old(Abs()), states, keepTag, cutoff, dryRun)
      ensures deleted == Order(old(jobs.rows), Victims(old(jobs.rows), states, keepTag, cutoff))
    {
      deleted := Prune.HandlePrune(jobs, logs, states, keepTag, cutoff, dryRun);
    }

    // ---- leases ------------------------------------------------------------------------------------

    /** The check of the lease loop, on arrival and at every poll. */
    method LeaseCheck(task: TaskId)
      requires Valid() && (Enabled(Abs(), LeaseAsk(task)) || Enabled(Abs(), LeasePoll(task)))
      modifies `leasing
      ensures Valid() && Abs() == DoLeaseCheck(old(Abs()), task)
      ensures leasing == old(leasing)[task := if current.None? && !leaseHeld then EvictingFirst else Polling]
    {
      if current.Some? || leaseHeld {
        leasing := leasing[task := Polling];
      } else {
        leasing := leasing[task := EvictingFirst];
      }
    }

    method LeaseGranted(task: TaskId, lid: LeaseId, now: Stamp)
      requires Valid() && Enabled(Abs(), LeaseGrant(task, lid, now))
      modifies this
      ensures Valid() && Abs() == DoLeaseGrant(old(Abs()), task, lid, now)
    {
      Hold(lid, now);
      leasing, clock := leasing - {task}, now;
    }

    method Hold(lid: LeaseId, now: Stamp)
      requires Valid()
      modifies `leases, `leaseHeld, `leaseId
      ensures Valid() && Abs() == old(Abs()).(leases := old(leases)[lid := LeaseRow(now, None)],
                                              leaseHeld := true, leaseId := Some(lid))
    {
      leases := leases[lid := LeaseRow(now, None)];
      leaseHeld := true;
      leaseId := Some(lid);
    }

    /** Eviction raised on behalf of a lease: the handler is over and nothing was granted. */
    method LeaseRefused(task: TaskId)
      requires Valid() && Enabled(Abs(), LeaseEvictRaised(task))
      modifies `leasing
      ensures Valid() && Abs() == Next(old(Abs()), LeaseEvictRaised(task))
    {
      leasing := leasing - {task};
    }

    method HandleRelease(lid: Option<LeaseId>, now: Stamp) returns (ok: bool)
      requires Valid() && Enabled(Abs(), Release(lid, now))
      modifies this, queue
      ensures Valid() && Abs() == DoRelease(old(Abs()), lid, now)
      ensures ok <==> old(leaseId) == lid
    {
      if leaseId != lid { return false; }
      CloseLease(lid, now);
      leaseHeld := false;
      leaseId := None;
      queue.notify := true;
      clock := now;
      ok := true;
    }

    method CloseLease(lid: Option<LeaseId>, now: Stamp)
      modifies `leases
      ensures leases == if lid.Some? && lid.value in old(leases)
                        then old(leases)[lid.value := old(leases)[lid.value].(released := Some(now))] else old(leases)
    {
      if lid.Some? && lid.value in leases {
        leases := leases[lid.value := leases[lid.value].(released := Some(now))];
      }
    }

    // ---- the scheduler -----------------------------------------------------------------------------

    /** From the return of notify.wait to the next suspension. */
    method Woken(now: Stamp)
      requires Valid() && Enabled(Abs(), Wake(now))
      modifies this, jobs, queue
      ensures Valid() && Abs() == DoWake(old(Abs()), now)
    {
      if leaseHeld {
        pc := AwaitRelease;
        return;
      }
      TakeNext(now);
    }

    method TakeNext(now: Stamp)
      requires Valid() && pc.Idle? && !leaseHeld
      modifies `pc, `clock, jobs, queue
      ensures Valid() && Abs() == DoWake(old(Abs()), now)
    {
      var job := queue.Pop(now);
      if job.Some? {
        pc, clock := Evicting(job.value), now;
      }
    }

    method PollLease()
      requires Valid() && Enabled(Abs(), PollRelease)
      modifies `pc
      ensures Valid() && Abs() == DoPollRelease(old(Abs()))
    {
      if !leaseHeld { pc := Idle; }
    }

    /** `_run_job` from the return of evict: report, open the files, make the runner current, announce. */
    method Evicted(models: seq<string>, opens: bool, now: Stamp)
      requires Valid() && Enabled(Abs(), EvictReturned(models, opens, now))
      modifies this, jobs, bus, logs
      ensures Valid() && bus.Stay() && Abs() == DoEvictReturned(old(Abs()), old(pc).job, models, opens, now)
    {
      var id := pc.job;
      if models != [] { bus.Publish(id, EvictedEv(models)); }
      if !opens {
        Crashed(now);
        return;
      }
      Begin(id, now);
    }

    method Begin(id: JobId, now: Stamp)
      requires Valid() && pc.Evicting?
      modifies this, jobs, bus, logs
      ensures Valid() && bus.Stay() && Abs() == DoEvictReturned(old(Abs()), id, [], true, now)
    {
      Occupy(id, now);
      bus.Publish(id, RunningEv(now));
    }

    method Occupy(id: JobId, now: Stamp)
      requires Valid() && pc.Evicting?
      modifies this, jobs, logs
      ensures Valid() && bus.feeds == old(bus.feeds)
      ensures Abs() == old(Abs()).(
        disk := if id in old(logs.disk) then old(logs.disk) else old(logs.disk)[id := EMPTY_DIR],
        runner := Some(Runner(id)), current := Some(id), clock := now, pc := Executing(id, Created), waiter := None,
        rows := Updated(old(jobs.rows), id, Running, None, None, Some(now), None))
    {
      logs.Open(id);
      runner := Some(Runner(id));
      current := Some(id);
      jobs.UpdateState(id, Running, None, None, Some(now), None);
      pc, clock := Executing(id, Created), now;
    }

    /** The scheduler's `except` branch. */
    method Crashed(now: Stamp)
      requires Valid() && Enabled(Abs(), EvictRaised(now))
      modifies this, jobs
      ensures Valid() && Abs() == GiveUp(old(Abs()), old(pc).job, now)
    {
      jobs.UpdateState(pc.job, Failed, None, Some(-1), None, Some(now));
      pc, clock := Idle, now;
    }

    method StartMirror()
      requires Valid() && Enabled(Abs(), MirrorStarted)
      modifies this, logs
      ensures Valid() && Abs() == old(Abs()).(waiter := Some([]), pc := Executing(old(pc).job, Listening))
    {
      var h := logs.Follow();
      mirror := Some(h);
      pc := Executing(pc.job, Listening);
    }

    /** The child process exists. */
    method ChildStarted()
      requires Valid() && Enabled(Abs(), ChildSpawned)
      modifies this
      ensures Valid() && Abs() == Next(old(Abs()), ChildSpawned)
    {
      pc := Executing(pc.job, Spawned);
    }

    method SawPid(pid: int)
      requires Valid() && Enabled(Abs(), PidSeen(pid))
      modifies jobs
      ensures Valid() && Abs() == Next(old(Abs()), PidSeen(pid))
    {
      jobs.UpdateState(pc.job, Running, Some(pid), None, None, None);
    }

    /** A pump hands one line over. */
    method PumpLine(l: Line)
      requires Valid() && Enabled(Abs(), Appended(l))
      modifies logs, `lost
      ensures Valid() && Abs() == DoAppended(old(Abs()), pc.job, l)
    {
      logs.Append(l.stream, l.text);
      if mirror.None? { lost := lost[pc.job := (if pc.job in lost then lost[pc.job] else []) + [l]]; }
    }

    /** `await run_task` has returned or raised: the end marker goes to the followers. */
    method RunTaskOver(how: RunEnd)
      requires Valid() && Enabled(Abs(), RunEnded(how))
      modifies this, logs
      ensures Valid() && Abs() == DoRunEnded(old(Abs()), old(pc).job, how)
      ensures pc.Executing? && pc.stage.Draining? && (pc.stage.clean <==> how.Exited?)
      ensures pc.stage.rc == if how.Exited? then how.rc else -1
    {
      logs.Eof();
      pc := Executing(pc.job, match how
                              case Exited(rc) => Draining(rc, true, false)
                              case Raised(orphan) => Draining(-1, false, orphan));
    }

    /** One turn of the mirror task. */
    method MirrorTurn()
      requires Valid() && Enabled(Abs(), MirrorTook)
      modifies this, bus, logs
      ensures Valid() && bus.Stay() && Abs() == DoMirrorTook(old(Abs()), old(pc).job)
    {
      ghost var rest := logs.waiters[mirror.value][1..];
      var item := logs.Take(mirror.value);
      if item.Got? {
        bus.Publish(pc.job, LogEv(item.line));
      } else {
        mirror := None;
        lost := lost[pc.job := (if pc.job in lost then lost[pc.job] else []) + Lines(rest)];
      }
    }

    /** The rest of `_run_job`'s finally block: clear, write the terminal row, announce it, close. */
    method FinishJob(now: Stamp)
      requires Valid() && Enabled(Abs(), Finished(now))
      modifies this, jobs, bus, logs
      ensures Valid() && bus.Stay()
      ensures Abs() == DoFinished(old(Abs()), old(pc).job, old(pc).stage.rc, old(pc).stage.clean, now)
    {
      var id, rc := pc.job, pc.stage.rc;
      var final := if rc == 0 && pc.stage.clean then Done else Failed;
      ClearAndWrite(id, final, rc, now);
      AnnounceEnd(id, final, Some(rc));
    }

    method ClearAndWrite(id: JobId, final: JobState, rc: int, now: Stamp)
      requires Valid() && mirror.None?
      modifies this, jobs, logs
      ensures Valid() && bus.feeds == old(bus.feeds)
      ensures Abs() == old(Abs()).(runner := None, current := None, pc := Idle, clock := now,
        rows := Updated(old(jobs.rows), id, final, None, Some(rc), None, Some(now)))
    {
      logs.Close();
      runner, current := None, None;
      jobs.UpdateState(id, final, None, Some(rc), None, Some(now));
      pc, clock := Idle, now;
    }

    // ---- any step ----------------------------------------------------------------------------------

    /** What the connection handlers do, request by request and turn by turn. */
    method Serve(e: Step)
      requires Valid() && Sound(Abs()) && Enabled(Abs(), e) && ByHandler(e)
      modifies this, jobs, queue, bus, logs
      ensures Valid() && bus.Stay() && Abs() == Next(old(Abs()), e)
    {
      if e.LeaseAsk? || e.LeasePoll? {
        LeaseCheck(e.task);
      } else if e.LeaseGrant? {
        LeaseGranted(e.task, e.lid, e.now);
      } else if e.LeaseEvictRaised? {
        LeaseRefused(e.task);
      } else if e.Release? {
        var _ := HandleRelease(e.claimed, e.now);
      } else if e.CancelPoll? {
        var _ := WaitTerminal(e.task, e.expired);
      } else {
        ServeJobs(e);
      }
    }

    method ServeJobs(e: Step)
      requires Valid() && Sound(Abs()) && Enabled(Abs(), e)
      requires e.Submit? || e.Retry? || e.Bump? || e.Cancel? || e.Doctor? || e.Prune?
      modifies this, jobs, queue, bus, logs
      ensures Valid() && bus.Stay() && Abs() == Next(old(Abs()), e)
    {
      if e.Submit? {
        FreshId(Abs(), e.id);
        var _, _, _ := HandleSubmit(e.id, e.work, e.priority, e.next, e.parent, e.now, e.now);
      } else if e.Retry? {
        FreshId(Abs(), e.id);
        var _ := HandleRetry(e.id, e.original, e.force, e.now);
      } else if e.Bump? {
        var _ := HandleBump(e.id);
      } else if e.Cancel? {
        var _ := HandleCancel(e.task, e.id, e.signal, e.now);
      } else if e.Doctor? {
        var _ := HandleDoctor(e.fix, e.ids, e.minAge, e.alive, e.now);
      } else {
        var _ := HandlePrune(e.states, e.keepTag, e.cutoff, e.dryRun);
      }
    }

    /** What the scheduler and the tasks of its job do. */
    method Schedule(e: Step)
      requires Valid() && Enabled(Abs(), e) && !ByHandler(e) && !e.CrashRestart?
      modifies this, jobs, queue, bus, logs
      ensures Valid() && bus.Stay() && Abs() == Next(old(Abs()), e)
    {
      if e.Wake? {
        Woken(e.now);
      } else if e.PollRelease? {
        PollLease();
      } else if e.EvictReturned? {
        Evicted(e.models, e.opens, e.now);
      } else if e.EvictRaised? {
        Crashed(e.now);
      } else if e.Finished? {
        FinishJob(e.now);
      } else if e.MirrorTook? {
        MirrorTurn();
      } else {
        Attend(e);
      }
    }

    /** The turns in which the bus gets nothing. */
    method Attend(e: Step)
      requires Valid() && Enabled(Abs(), e)
      requires e.MirrorStarted? || e.ChildSpawned? || e.PidSeen? || e.Appended? || e.RunEnded?
      modifies this, jobs, logs
      ensures Valid() && Abs() == Next(old(Abs()), e)
    {
      match e
      case MirrorStarted => StartMirror();
      case ChildSpawned => ChildStarted();
      case PidSeen(pid) => SawPid(pid);
      case Appended(line) => PumpLine(line);
      case RunEnded(how) => RunTaskOver(how);
    }

    // ---- restart -----------------------------------------------------------------------------------

    /** `_reconcile_on_startup`: every row that was starting or running fails. */
    method Reconcile(now: Stamp)
      modifies jobs
      ensures jobs.rows == FailRows(old(jobs.rows), ActiveIds(old(jobs.rows)), now)
    {
      ghost var t := jobs.rows;
      var running := Order(jobs.rows, ActiveIds(jobs.rows));
      ghost var done: set<JobId> := {};
      FailNothing(t, now);
      for i := 0 to |running|
        invariant forall k :: k in done <==> k in running[..i]
        invariant jobs.rows == FailRows(t, done, now)
      {
        OnceInOrder(t, ActiveIds(t), i);
        jobs.Fail(running[i], t, done, now);
        done := done + {running[i]};
      }
      assert running[..|running|] == running;
      assert done == ActiveIds(t);
    }
  }

  /** A new process opens the tables and files that the old one left. */
  method Reopen(crashed: Server, now: Stamp) returns (s: Server)
    ensures s.Valid() && fresh(s) && fresh(s.jobs) && fresh(s.queue) && fresh(s.bus) && fresh(s.logs)
    ensures s.Abs() == Init().(rows := crashed.jobs.rows, leases := crashed.leases, disk := crashed.logs.disk,
                               clock := now, used := crashed.used, lost := crashed.lost)
  {
    s := new Server();
    s.jobs.rows, s.leases, s.logs.disk := crashed.jobs.rows, crashed.leases, crashed.logs.disk;
    s.clock, s.used, s.lost := now, crashed.used, crashed.lost;
  }

  method Restart(crashed: Server, now: Stamp) returns (s: Server)
    requires crashed.Valid() && Enabled(crashed.Abs(), CrashRestart(now))
    ensures s.Valid() && fresh(s) && fresh(s.jobs) && fresh(s.queue) && fresh(s.bus) && fresh(s.logs)
    ensures s.Abs() == DoCrashRestart(crashed.Abs(), now)
    ensures s.logs.disk == crashed.logs.disk && s.leases == crashed.leases
  {
    s := Reopen(crashed, now);
    s.Reconcile(now);
  }

  /** One step, whoever takes it; after a crash another object goes on. */
  method Perform(s: Server, e: Step) returns (t: Server)
    requires s.Valid() && Sound(s.Abs()) && Enabled(s.Abs(), e)
    modifies s, s.jobs, s.queue, s.bus, s.logs
    ensures t.Valid() && t.Abs() == Next(old(s.Abs()), e)
    ensures !e.CrashRestart? ==> t == s && s.bus.Stay()
    ensures e.CrashRestart? ==> fresh(t) && fresh(t.jobs) && fresh(t.queue) && fresh(t.bus) && fresh(t.logs)
  {
    if e.CrashRestart? {
      t := Restart(s, e.now);
    } else {
      t := s;
      if ByHandler(e) { s.Serve(e); } else { s.Schedule(e); }
    }
  }

  /** Any run of the machine, played on the objects: from a new server, step by step through the methods
      above, every state of the run is the state the objects stand for. */
  method Play(script: seq<Step>, ghost ss: seq<State>) returns (s: Server)
    requires Run(ss, script)
    ensures s.Valid() && s.Abs() == ss[|script|]
  {
    s := new Server();
    for i := 0 to |script|
      invariant fresh(s) && fresh(s.jobs) && fresh(s.queue) && fresh(s.bus) && fresh(s.logs)
      invariant s.Valid() && s.Abs() == ss[i]
    {
      RunStep(ss, script, i);
      s := Perform(s, script[i]);
    }
  }

  lemma FreshId(s: State, id: JobId)
    requires Sound(s) && id !in s.used
    ensures id !in s.rows
  {
    assert forall k :: k in s.rows ==> RowSound(s, k);
  }
}

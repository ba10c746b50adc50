/** What every step of the daemon keeps. */
module Invariants {
  import opened Common
  import opened Jobs
  import opened Machine

  predicate Busy(s: State) { s.pc.Evicting? || s.pc.Executing? }

  /** Which columns a row has in each state, and that they were written in order. */
  predicate Columns(r: Row, clock: Stamp)
  {
    && r.submitted <= clock
    && (r.started.Some? ==> r.submitted < r.started.value <= clock)
    && (r.finished.Some? ==> r.submitted < r.finished.value <= clock)
    && (r.started.Some? && r.finished.Some? ==> r.started.value < r.finished.value)
    && match r.state
       case Queued => r.started.None? && r.finished.None? && r.pid.None? && r.exitCode.None?
       case Starting => r.started.Some? && r.finished.None? && r.pid.None? && r.exitCode.None?
       case Running => r.started.Some? && r.finished.None? && r.exitCode.None?
       case Done => r.started.Some? && r.finished.Some? && r.exitCode == Some(0)
       case Failed => r.started.Some? && r.finished.Some? && r.exitCode.Some? && r.exitCode != Some(0)
       case Cancelled => r.started.None? && r.finished.Some? && r.pid.None? && r.exitCode.None?
  }

  /** A row is starting iff the scheduler is inside its eviction, and running iff it is the current job. */
  predicate RowSound(s: State, id: JobId)
    requires id in s.rows
  {
    && id in s.used
    && Columns(s.rows[id], s.clock)
    && (s.rows[id].state.Starting? <==> s.pc == Evicting(id))
    && (s.rows[id].state.Running? <==> s.current == Some(id))
  }

  /** A job that a cancel handler waits for has been running: it can only finish or be deleted. */
  predicate WaitSound(s: State, id: JobId)
  {
    id in s.used && (id in s.rows ==> s.rows[id].state.Running? || s.rows[id].state.Terminal())
  }

  /** What the fields of the server say about the scheduler. */
  predicate Control(s: State)
  {
    && s.current == (if s.pc.Executing? then Some(s.pc.job) else None)
    && s.runner == (if s.pc.Executing? then Some(Runner(s.pc.job)) else None)
    && (s.leaseHeld <==> s.leaseId.Some?)
    && (Busy(s) ==> s.pc.job in s.used)
    && (s.pc.Executing? && s.pc.stage.Draining? && !s.pc.stage.clean ==> s.pc.stage.rc == -1)
  }

  ghost predicate Sound(s: State)
  {
    && (forall id :: id in s.rows ==> RowSound(s, id))
    && (forall t :: t in s.cancels ==> WaitSound(s, s.cancels[t].job))
    && Control(s)
  }

  /** The only moves of a row: queued to starting or cancelled, starting to running or failed, running to
      done or failed.  A terminal row never changes again, in any column. */
  predicate Edge(a: Row, b: Row)
  {
    && b.work == a.work && b.submitted == a.submitted && b.parent == a.parent
    && (a.state.Queued? && b.state.Queued? ==> b == a.(priority := b.priority))
    && ((a.state.Queued? && b.state.Queued?) || b.priority == a.priority)
    && match a.state
       case Queued => b.state.Queued? || b.state.Starting? || b.state.Cancelled?
       case Starting => b.state.Starting? || b.state.Running? || b.state.Failed?
       case Running => b.state.Running? || b.state.Done? || b.state.Failed?
       case _ => b == a
  }

  /** What a step may do to a row: move it along an edge, or insert it, queued and under a fresh id. */
  predicate RowMoves(s: State, t: State, id: JobId)
    requires id in t.rows
  {
    if id in s.rows then Edge(s.rows[id], t.rows[id]) else id !in s.used && t.rows[id].state.Queued?
  }

  /** From s to t every invariant was kept and every row that is left moved along an edge. */
  ghost predicate Kept(s: State, t: State)
  {
    && Sound(t)
    && t.used >= s.used && t.clock >= s.clock
    && forall id :: id in t.rows ==> RowMoves(s, t, id)
  }

  /** The scheduler's job, if it has one, is `id`. */
  predicate OnlyFor(s: State, id: JobId) { Busy(s) ==> s.pc.job == id }

  /** A step that writes at most the row of one job, and moves at most that job. */
  lemma SoundWrite(s: State, t: State, id: JobId)
    requires Sound(s) && Control(t) && t.clock >= s.clock && t.used == s.used && t.cancels == s.cancels
    requires t.rows == if id in s.rows && id in t.rows then s.rows[id := t.rows[id]] else s.rows
    requires (t.pc == s.pc && t.current == s.current) || (OnlyFor(s, id) && OnlyFor(t, id))
    requires id in t.rows ==> RowSound(t, id)
    requires id in s.rows && id in t.rows ==> Edge(s.rows[id], t.rows[id])
    requires WaitSound(s, id) ==> WaitSound(t, id)
    ensures Kept(s, t)
  {
    forall k | k in t.rows ensures RowSound(t, k) { assert RowSound(s, k); }
    forall k | k in t.cancels ensures WaitSound(t, t.cancels[k].job) { assert WaitSound(s, s.cancels[k].job); }
  }

  /** A step that writes no row and does not hand the scheduler to another job. */
  lemma SoundFrame(s: State, t: State)
    requires Sound(s) && Control(t) && t.clock >= s.clock && t.used == s.used && t.rows == s.rows
    requires t.cancels == s.cancels
    requires t.pc == s.pc || (!Busy(s) && !Busy(t))
             || (s.pc.Executing? && t.pc.Executing? && s.pc.job == t.pc.job)
    ensures Kept(s, t)
  {
    forall k | k in t.rows ensures RowSound(t, k) { assert RowSound(s, k); }
    forall k | k in t.cancels ensures WaitSound(t, t.cancels[k].job) { assert WaitSound(s, s.cancels[k].job); }
  }

  /** A step that only changes what one cancel handler waits for. */
  lemma SoundWaits(s: State, task: TaskId, waits: map<TaskId, CancelWait>)
    requires Sound(s) && waits - {task} == s.cancels - {task}
    requires task in waits ==> WaitSound(s, waits[task].job)
    ensures Kept(s, s.(cancels := waits))
  {
    forall k | k in waits ensures WaitSound(s, waits[k].job) {
      if k != task {
        assert k in waits - {task} && (waits - {task})[k] == (s.cancels - {task})[k];
      }
    }
    forall k | k in s.rows ensures RowSound(s.(cancels := waits), k) { assert RowSound(s, k); }
  }

  lemma SoundEnqueue(s: State, id: JobId, j: Row)
    requires Sound(s) && id !in s.used && j.submitted > s.clock && j.state.Queued? && Columns(j, j.submitted)
    ensures Kept(s, Enqueue(s, id, j))
  {
    var t := Enqueue(s, id, j);
    forall k | k in t.rows ensures RowSound(t, k) {
      if k != id { assert RowSound(s, k); }
    }
    forall k | k in t.cancels ensures WaitSound(t, t.cancels[k].job) { assert WaitSound(s, s.cancels[k].job); }
  }

  lemma SoundBump(s: State, id: JobId)
    requires Sound(s)
    ensures Kept(s, DoBump(s, id))
  {
    if id in QueuedIds(s.rows) {
      assert RowSound(s, id);
      SoundWrite(s, DoBump(s, id), id);
    }
  }

  lemma SoundCancelQueued(s: State, task: TaskId, id: JobId, signal: Signal, now: Stamp)
    requires Sound(s) && now > s.clock && id in QueuedIds(s.rows)
    ensures Kept(s, DoCancel(s, task, id, signal, now))
  {
    assert RowSound(s, id);
    var t := DoCancel(s, task, id, signal, now);
    assert RowSound(t, id);
    SoundWrite(s, t, id);
  }

  lemma SoundCancel(s: State, task: TaskId, id: JobId, signal: Signal, now: Stamp)
    requires Sound(s) && task !in s.cancels && now > s.clock
    ensures Kept(s, DoCancel(s, task, id, signal, now))
  {
    if id in QueuedIds(s.rows) {
      SoundCancelQueued(s, task, id, signal, now);
    } else {
      if CancelOutcome(s, id, signal).Signalled? { assert RowSound(s, id); }
      SoundWaits(s, task, WaitsWith(s, task, id, signal));
    }
  }

  lemma SoundPoll(s: State, task: TaskId, expired: bool)
    requires Sound(s) && task in s.cancels
    ensures Kept(s, DoCancelPoll(s, task, expired))
  {
    SoundWaits(s, task, WaitsAfter(s, task, expired));
  }

  /** No row is ever fit for `doctor --fix`: every running row is the current job. */
  lemma NothingFixable(s: State, ids: set<JobId>, minAge: int, alive: set<int>, now: Stamp)
    requires Sound(s)
    ensures Fixable(s, ids, minAge, alive, now) == {}
  {
    forall k | k in s.rows ensures k !in Fixable(s, ids, minAge, alive, now) { assert RowSound(s, k); }
  }

  lemma SoundDoctor(s: State, fix: bool, ids: set<JobId>, minAge: int, alive: set<int>, now: Stamp)
    requires Sound(s) && now > s.clock
    ensures DoDoctor(s, fix, ids, minAge, alive, now).rows == s.rows
    ensures Kept(s, DoDoctor(s, fix, ids, minAge, alive, now))
  {
    NothingFixable(s, ids, minAge, alive, now);
    var t := DoDoctor(s, fix, ids, minAge, alive, now);
    assert t.rows == s.rows;
    SoundFrame(s, t);
  }

  lemma SoundPrune(s: State, states: seq<StateName>, keepTag: string, cutoff: Stamp, dryRun: bool)
    requires Sound(s)
    ensures Kept(s, DoPrune(s, states, keepTag, cutoff, dryRun))
  {
    var t := DoPrune(s, states, keepTag, cutoff, dryRun);
    forall k | k in t.rows ensures RowSound(t, k) { assert RowSound(s, k); }
    forall k | k in t.cancels ensures WaitSound(t, t.cancels[k].job) { assert WaitSound(s, s.cancels[k].job); }
  }

  lemma SoundWake(s: State, now: Stamp)
    requires Sound(s) && s.pc.Idle? && now > s.clock
    ensures Kept(s, DoWake(s, now))
  {
    var t := DoWake(s, now);
    if !s.leaseHeld && NextQueued(s.rows).Some? {
      assert RowSound(s, t.pc.job);
      SoundWrite(s, t, t.pc.job);
    } else {
      SoundFrame(s, t);
    }
  }

  lemma SoundGiveUp(s: State, now: Stamp)
    requires Sound(s) && s.pc.Evicting? && now > s.clock
    ensures Kept(s, GiveUp(s, s.pc.job, now))
  {
    var t := GiveUp(s, s.pc.job, now);
    if s.pc.job in s.rows {
      assert RowSound(s, s.pc.job);
      assert RowSound(t, s.pc.job);
      assert Edge(s.rows[s.pc.job], t.rows[s.pc.job]);
    }
    SoundWrite(s, t, s.pc.job);
  }

  lemma SoundEvicted(s: State, models: seq<string>, opens: bool, now: Stamp)
    requires Sound(s) && s.pc.Evicting? && now > s.clock
    ensures Kept(s, DoEvictReturned(s, s.pc.job, models, opens, now))
  {
    if !opens {
      SoundGiveUp(s, now);
      SoundFrame(GiveUp(s, s.pc.job, now), DoEvictReturned(s, s.pc.job, models, opens, now));
    } else {
      SoundStarted(s, DoEvictReturned(s, s.pc.job, models, opens, now), now);
    }
  }

  lemma SoundStarted(s: State, t: State, now: Stamp)
    requires Sound(s) && s.pc.Evicting? && now > s.clock && t.clock == now && t.used == s.used
    requires t.rows == Updated(s.rows, s.pc.job, Running, None, None, Some(now), None)
    requires t.pc == Executing(s.pc.job, Created) && Control(t) && t.cancels == s.cancels
    ensures Kept(s, t)
  {
    if s.pc.job in s.rows {
      assert RowSound(s, s.pc.job);
      assert RowSound(t, s.pc.job);
    }
    SoundWrite(s, t, s.pc.job);
  }

  lemma SoundPid(s: State, pid: int)
    requires Sound(s) && At(s, Spawned)
    ensures Kept(s, s.(rows := Updated(s.rows, s.pc.job, Running, Some(pid), None, None, None)))
  {
    if s.pc.job in s.rows { assert RowSound(s, s.pc.job); }
    SoundWrite(s, s.(rows := Updated(s.rows, s.pc.job, Running, Some(pid), None, None, None)), s.pc.job);
  }

  lemma SoundFinished(s: State, now: Stamp)
    requires Sound(s) && s.pc.Executing? && s.pc.stage.Draining? && now > s.clock
    ensures Kept(s, DoFinished(s, s.pc.job, s.pc.stage.rc, s.pc.stage.clean, now))
  {
    var t := DoFinished(s, s.pc.job, s.pc.stage.rc, s.pc.stage.clean, now);
    if s.pc.job in s.rows {
      assert RowSound(s, s.pc.job);
      assert RowSound(t, s.pc.job);
      assert Edge(s.rows[s.pc.job], t.rows[s.pc.job]);
    }
    SoundWrite(s, t, s.pc.job);
  }

  lemma SoundCrash(s: State, now: Stamp)
    requires Sound(s) && now > s.clock
    ensures Kept(s, DoCrashRestart(s, now))
  {
    var t := DoCrashRestart(s, now);
    forall k | k in t.rows ensures RowSound(t, k) { assert RowSound(s, k); }
  }

  lemma SoundLeases(s: State, e: Step)
    requires Sound(s) && Enabled(s, e)
    requires e.LeaseAsk? || e.LeasePoll? || e.LeaseGrant? || e.LeaseEvictRaised? || e.Release? || e.PollRelease?
    ensures Kept(s, Next(s, e))
  {
    match e
    case LeaseAsk(task) => SoundFrame(s, DoLeaseCheck(s, task));
    case LeasePoll(task) => SoundFrame(s, DoLeaseCheck(s, task));
    case LeaseGrant(task, lid, now) => SoundFrame(s, DoLeaseGrant(s, task, lid, now));
    case LeaseEvictRaised(task) => SoundFrame(s, s.(leasing := s.leasing - {task}));
    case Release(claimed, now) => SoundFrame(s, DoRelease(s, claimed, now));
    case PollRelease => SoundFrame(s, DoPollRelease(s));
  }

  lemma SoundLogging(s: State, e: Step)
    requires Sound(s) && Enabled(s, e)
    requires e.MirrorStarted? || e.ChildSpawned? || e.Appended? || e.RunEnded?
    ensures Kept(s, Next(s, e))
  {
    match e
    case MirrorStarted => SoundFrame(s, s.(waiter := Some([]), pc := Executing(s.pc.job, Listening)));
    case ChildSpawned => SoundFrame(s, s.(pc := Executing(s.pc.job, Spawned)));
    case Appended(line) => SoundFrame(s, DoAppended(s, s.pc.job, line));
    case RunEnded(how) => SoundFrame(s, DoRunEnded(s, s.pc.job, how));
  }

  lemma SoundMirror(s: State)
    requires Sound(s) && Enabled(s, MirrorTook)
    ensures Kept(s, DoMirrorTook(s, s.pc.job))
  {
    var t := DoMirrorTook(s, s.pc.job);
    assert t == s.(waiter := t.waiter, feeds := t.feeds, lost := t.lost);
    SoundFrame(s, t);
  }

  lemma SoundRequests(s: State, e: Step)
    requires Sound(s) && Enabled(s, e)
    requires e.Submit? || e.Retry? || e.Bump? || e.Cancel? || e.CancelPoll? || e.Doctor? || e.Prune?
    ensures Kept(s, Next(s, e))
  {
    match e
    case Submit(id, work, priority, next, parent, now) =>
      SoundEnqueue(s, id, NewRow(work, if next then FrontPriority(s.rows, None) else priority, parent, now));
    case Retry(id, original, force, now) =>
      if Retryable(s, original, force) {
        SoundEnqueue(s, id, NewRow(s.rows[original].work, s.rows[original].priority, Some(original), now));
      }
    case Bump(id) => SoundBump(s, id);
    case Cancel(task, id, signal, now) => SoundCancel(s, task, id, signal, now);
    case CancelPoll(task, expired) => SoundPoll(s, task, expired);
    case Doctor(fix, ids, minAge, alive, now) => SoundDoctor(s, fix, ids, minAge, alive, now);
    case Prune(states, keepTag, cutoff, dryRun) => SoundPrune(s, states, keepTag, cutoff, dryRun);
  }

  lemma SoundKept(s: State, e: Step)
    requires Sound(s) && Enabled(s, e)
    ensures Kept(s, Next(s, e))
  {
    match e
    case Wake(now) => SoundWake(s, now);
    case EvictReturned(models, opens, now) => SoundEvicted(s, models, opens, now);
    case EvictRaised(now) => SoundGiveUp(s, now);
    case PidSeen(pid) => SoundPid(s, pid);
    case Finished(now) => SoundFinished(s, now);
    case CrashRestart(now) => SoundCrash(s, now);
    case MirrorStarted => SoundLogging(s, e);
    case ChildSpawned => SoundLogging(s, e);
    case Appended(_) => SoundLogging(s, e);
    case RunEnded(_) => SoundLogging(s, e);
    case MirrorTook => SoundMirror(s);
    case Submit(_, _, _, _, _, _) => SoundRequests(s, e);
    case Retry(_, _, _, _) => SoundRequests(s, e);
    case Bump(_) => SoundRequests(s, e);
    case Cancel(_, _, _, _) => SoundRequests(s, e);
    case CancelPoll(_, _) => SoundRequests(s, e);
    case Doctor(_, _, _, _, _) => SoundRequests(s, e);
    case Prune(_, _, _, _) => SoundRequests(s, e);
    case _ => SoundLeases(s, e);
  }

  /** Every state of every run is sound. */
  lemma {:induction false} RunSound(ss: seq<State>, es: seq<Step>, n: nat)
    requires Run(ss, es) && n <= |es|
    ensures Sound(ss[n])
  {
    if n > 0 {
      RunSound(ss, es, n - 1);
      assert StepAt(ss, es, n - 1);
      SoundKept(ss[n - 1], es[n - 1]);
    }
  }

  /** One step of a run keeps every invariant. */
  lemma RunKept(ss: seq<State>, es: seq<Step>, n: nat)
    requires Run(ss, es) && n < |es|
    ensures Kept(ss[n], ss[n + 1])
  {
    RunSound(ss, es, n);
    assert StepAt(ss, es, n);
    SoundKept(ss[n], es[n]);
  }

  lemma RunStep(ss: seq<State>, es: seq<Step>, n: nat)
    requires Run(ss, es) && n < |es|
    ensures Sound(ss[n]) && Enabled(ss[n], es[n]) && ss[n + 1] == Next(ss[n], es[n])
  {
    RunSound(ss, es, n);
    assert StepAt(ss, es, n);
  }
}

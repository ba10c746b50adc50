/** What holds over whole runs, any number of crashes and restarts included. */
module History {
  import opened Common
  import opened Jobs
  import opened PriorityQueue
  import opened Prune
  import opened Machine
  import opened Invariants
  import opened QueueRuns

  /** At most one row is ever starting or running. */
  lemma OneActive(ss: seq<State>, es: seq<Step>, n: nat, a: JobId, b: JobId)
    requires Run(ss, es) && n <= |es|
    requires a in ActiveIds(ss[n].rows) && b in ActiveIds(ss[n].rows)
    ensures a == b && Busy(ss[n]) && ss[n].pc.job == a
  {
    RunSound(ss, es, n);
    assert RowSound(ss[n], a) && RowSound(ss[n], b);
  }

  /** A terminal row stays as it is, to the last column, for as long as it is in the table. */
  lemma {:induction false} TerminalIsForever(ss: seq<State>, es: seq<Step>, m: nat, n: nat, id: JobId)
    requires Run(ss, es) && m <= n <= |es|
    requires IsTerminal(ss[m], id) && id in ss[n].rows
    ensures ss[n].rows[id] == ss[m].rows[id]
  {
    if m < n {
      UsedGrows(ss, es, m, n - 1);
      RunSound(ss, es, m);
      RunKept(ss, es, n - 1);
      assert RowSound(ss[m], id) && RowMoves(ss[n - 1], ss[n], id);
      assert id in ss[n - 1].used;
      TerminalIsForever(ss, es, m, n - 1, id);
    }
  }

  /** `doctor --fix` finds nothing to fix in any state of any run. */
  lemma DoctorChangesNothing(ss: seq<State>, es: seq<Step>, n: nat)
    requires Run(ss, es) && n < |es| && es[n].Doctor?
    ensures ss[n + 1].rows == ss[n].rows
  {
    RunStep(ss, es, n);
    SoundDoctor(ss[n], es[n].fix, es[n].ids, es[n].minAge, es[n].alive, es[n].now);
  }

  // ---- at most once --------------------------------------------------------------------------------

  /** The job has left the queue and its id is spent. */
  predicate Gone(s: State, id: JobId) { id in s.used && id !in QueuedIds(s.rows) }

  lemma {:induction false} GoneForGood(ss: seq<State>, es: seq<Step>, m: nat, n: nat, id: JobId)
    requires Run(ss, es) && m <= n <= |es| && Gone(ss[m], id)
    ensures Gone(ss[n], id)
  {
    if m < n {
      GoneForGood(ss, es, m, n - 1, id);
      RunKept(ss, es, n - 1);
      if id in ss[n].rows { assert RowMoves(ss[n - 1], ss[n], id); }
    }
  }

  /** No job is popped twice, not even with a crash and restart in between: the pop is durable before
      anything is spawned, and the restart fails what was active instead of queueing it again. */
  lemma PoppedOnce(ss: seq<State>, es: seq<Step>, m: nat, n: nat, id: JobId)
    requires Run(ss, es) && m < n < |es| && Pops(ss[m], es[m], id)
    ensures !Pops(ss[n], es[n], id)
  {
    PoppedIsGone(ss, es, m, id);
    GoneForGood(ss, es, m + 1, n, id);
  }

  lemma PoppedIsGone(ss: seq<State>, es: seq<Step>, m: nat, id: JobId)
    requires Run(ss, es) && m < |es| && Pops(ss[m], es[m], id)
    ensures Gone(ss[m + 1], id) && ss[m + 1].pc == Evicting(id)
  {
    RunStep(ss, es, m);
    StepWrote(ss[m], es[m]);
    RunKept(ss, es, m);
    assert RowSound(ss[m], id);
  }

  predicate Spawns(s: State, e: Step, id: JobId) { e.ChildSpawned? && s.pc == Executing(id, Listening) }

  /** The scheduler is past the point where it spawns this job. */
  predicate PastSpawn(s: State, id: JobId)
  {
    Gone(s, id) && s.pc != Evicting(id) && s.pc != Executing(id, Created) && s.pc != Executing(id, Listening)
  }

  /** Where the scheduler can go from where it is. */
  predicate PcStep(s: State, e: Step, p: Pc)
  {
    match p
    case Idle => true
    case AwaitRelease => true
    case Evicting(id) => p == s.pc || Pops(s, e, id)
    case Executing(id, stage) =>
      || p == s.pc
      || (stage.Created? && s.pc == Evicting(id))
      || (!stage.Created? && s.pc.Executing? && s.pc.job == id && (stage.Listening? ==> s.pc.stage.Created?))
  }

  lemma PcMoves(s: State, e: Step)
    requires Enabled(s, e)
    ensures PcStep(s, e, Next(s, e).pc)
  {
    if e.Wake? { WakeMoves(s, e.now); }
  }

  lemma WakeMoves(s: State, now: Stamp)
    requires Enabled(s, Wake(now))
    ensures PcStep(s, Wake(now), DoWake(s, now).pc)
  {
  }

  lemma {:induction false} PastSpawnForGood(ss: seq<State>, es: seq<Step>, m: nat, n: nat, id: JobId)
    requires Run(ss, es) && m <= n <= |es| && PastSpawn(ss[m], id)
    ensures PastSpawn(ss[n], id)
  {
    if m < n {
      PastSpawnForGood(ss, es, m, n - 1, id);
      GoneForGood(ss, es, m, n, id);
      RunStep(ss, es, n - 1);
      PcMoves(ss[n - 1], es[n - 1]);
    }
  }

  /** No job's child process is spawned twice, over any number of crashes and restarts. */
  lemma SpawnedOnce(ss: seq<State>, es: seq<Step>, m: nat, n: nat, id: JobId)
    requires Run(ss, es) && m < n < |es| && Spawns(ss[m], es[m], id)
    ensures !Spawns(ss[n], es[n], id)
  {
    RunSound(ss, es, m);
    RunStep(ss, es, m);
    assert id !in QueuedIds(ss[m].rows) by {
      if id in ss[m].rows { assert RowSound(ss[m], id); }
    }
    RunKept(ss, es, m);
    if id in ss[m + 1].rows { assert RowMoves(ss[m], ss[m + 1], id); }
    PastSpawnForGood(ss, es, m + 1, n, id);
  }

  /** The job has started, so its log directory is never made again. */
  predicate PastStart(s: State, id: JobId) { Gone(s, id) && s.pc != Evicting(id) }

  lemma {:induction false} PastStartForGood(ss: seq<State>, es: seq<Step>, m: nat, n: nat, id: JobId)
    requires Run(ss, es) && m <= n <= |es| && PastStart(ss[m], id)
    ensures PastStart(ss[n], id)
  {
    if m < n {
      PastStartForGood(ss, es, m, n - 1, id);
      GoneForGood(ss, es, m, n, id);
      RunStep(ss, es, n - 1);
      PcMoves(ss[n - 1], es[n - 1]);
    }
  }

  // ---- what a submit and a retry insert -----------------------------------------------------------

  /** A submitted job is what the user asked for, untouched so far; its number is the asked one unless it
      is to go first. */
  lemma SubmitInserts(ss: seq<State>, es: seq<Step>, n: nat)
    requires Run(ss, es) && n < |es| && es[n].Submit?
    ensures var e := es[n]; e.id !in ss[n].rows && ss[n + 1].rows.Keys == ss[n].rows.Keys + {e.id}
    ensures var r := ss[n + 1].rows[es[n].id];
      && r.work == es[n].work && r.parent == es[n].parent && r.submitted == es[n].now && r.state.Queued?
      && r.pid.None? && r.exitCode.None? && r.started.None? && r.finished.None?
      && (if es[n].next then Pending(ss[n + 1].rows) == [es[n].id] + Pending(ss[n].rows)
                             && OneAbove(ss[n].rows, None, r.priority)
          else r.priority == es[n].priority)
    ensures forall k :: k in ss[n].rows ==> ss[n + 1].rows[k] == ss[n].rows[k]
  {
    RunStep(ss, es, n);
    NewIdIsFree(ss[n], es[n].id);
    if es[n].next { SubmitsFirst(ss, es, n); }
  }

  lemma NewIdIsFree(s: State, id: JobId)
    requires Sound(s) && id !in s.used
    ensures id !in s.rows
  {
    if id in s.rows { assert RowSound(s, id); }
  }

  lemma SubmitsFirst(ss: seq<State>, es: seq<Step>, n: nat)
    requires Run(ss, es) && n < |es| && es[n].Submit? && es[n].next
    ensures Pending(ss[n + 1].rows) == [es[n].id] + Pending(ss[n].rows)
    ensures es[n].id in ss[n + 1].rows && OneAbove(ss[n].rows, None, ss[n + 1].rows[es[n].id].priority)
  {
    RunStep(ss, es, n);
    StepRefines(ss, es, n);
    FrontIsOneAbove(ss[n].rows, None);
  }

  /** A bump changes one number, of a queued row, to one more than the best of the other queued ones. */
  lemma BumpNumbers(ss: seq<State>, es: seq<Step>, n: nat)
    requires Run(ss, es) && n < |es| && es[n].Bump?
    ensures var id := es[n].id;
      if id in QueuedIds(ss[n].rows) then
        && id in ss[n + 1].rows && OneAbove(ss[n].rows, Some(id), ss[n + 1].rows[id].priority)
        && ss[n + 1].rows == ss[n].rows[id := ss[n].rows[id].(priority := ss[n + 1].rows[id].priority)]
      else ss[n + 1] == ss[n]
  {
    RunStep(ss, es, n);
    FrontIsOneAbove(ss[n].rows, Some(es[n].id));
  }

  /** A retry inserts a fresh job with the work and the number of the original and its id as parent,
      exactly when the original is failed or cancelled, or done and forced; the original stays as it is. */
  lemma RetryInserts(ss: seq<State>, es: seq<Step>, n: nat)
    requires Run(ss, es) && n < |es| && es[n].Retry?
    ensures var e, first := es[n], es[n].original;
      e.id in ss[n + 1].rows <==>
        first in ss[n].rows && ss[n].rows[first].state.Terminal() && (e.force || !ss[n].rows[first].state.Done?)
    ensures es[n].id in ss[n + 1].rows ==>
      var r, was := ss[n + 1].rows[es[n].id], ss[n].rows[es[n].original];
      && r.work == was.work && r.priority == was.priority && r.parent == Some(es[n].original)
      && r.submitted == es[n].now && r.state.Queued?
      && r.pid.None? && r.exitCode.None? && r.started.None? && r.finished.None?
    ensures forall k :: k in ss[n].rows ==> k in ss[n + 1].rows && ss[n + 1].rows[k] == ss[n].rows[k]
  {
    RunStep(ss, es, n);
    RunSound(ss, es, n);
    assert es[n].id !in ss[n].rows;
  }

  // ---- when rows are stamped -----------------------------------------------------------------------

  /** A row that moved carries the time of the move: as its start when it became starting or running, as
      its finish when it became terminal. */
  predicate Stamped(a: Row, b: Row, now: Stamp)
  {
    match b.state
    case Queued => true
    case Starting => b.started == Some(now)
    case Running => b.started == Some(now)
    case _ => b.finished == Some(now) && b.started == a.started
  }

  predicate StampedMove(s: State, t: State, id: JobId)
    requires id in s.rows && id in t.rows
  {
    t.rows[id].state == s.rows[id].state || (Stamped(s.rows[id], t.rows[id], t.clock) && s.clock < t.clock)
  }

  lemma CancelStamps(s: State, e: Step, id: JobId)
    requires Enabled(s, e) && e.Cancel? && id in s.rows && id in Next(s, e).rows
    ensures StampedMove(s, Next(s, e), id)
  {
  }

  lemma HandlersMoveNothing(s: State, e: Step, id: JobId)
    requires Enabled(s, e) && ByHandler(e) && !e.Cancel? && !e.Doctor? && id in s.rows && id in Next(s, e).rows
    requires id in s.used
    ensures Next(s, e).rows[id].state == s.rows[id].state
  {
  }

  lemma HandlersStamp(s: State, e: Step, id: JobId)
    requires Sound(s) && Enabled(s, e) && ByHandler(e) && id in s.rows && id in Next(s, e).rows
    ensures StampedMove(s, Next(s, e), id)
  {
    if e.Cancel? {
      CancelStamps(s, e, id);
    } else if e.Doctor? {
      SoundDoctor(s, e.fix, e.ids, e.minAge, e.alive, e.now);
    } else {
      assert RowSound(s, id);
      HandlersMoveNothing(s, e, id);
    }
  }

  lemma WakeStamps(s: State, e: Step, id: JobId)
    requires Enabled(s, e) && e.Wake? && id in s.rows && id in Next(s, e).rows
    ensures StampedMove(s, Next(s, e), id)
  {
  }

  predicate AfterEviction(e: Step) { e.EvictReturned? || e.EvictRaised? }

  lemma EvictionStamps(s: State, e: Step, id: JobId)
    requires Enabled(s, e) && AfterEviction(e) && id in s.rows && id in Next(s, e).rows
    ensures StampedMove(s, Next(s, e), id)
  {
  }

  lemma SchedulerStamps(s: State, e: Step, id: JobId)
    requires Sound(s) && Enabled(s, e) && !ByHandler(e) && !e.Wake? && !AfterEviction(e)
    requires id in s.rows && id in Next(s, e).rows
    ensures StampedMove(s, Next(s, e), id)
  {
    assert RowSound(s, id);
  }

  /** Over all runs: every change of state is stamped with the clock of its own step. */
  lemma MovesAreStamped(ss: seq<State>, es: seq<Step>, n: nat, id: JobId)
    requires Run(ss, es) && n < |es| && id in ss[n].rows && id in ss[n + 1].rows
    requires ss[n + 1].rows[id].state != ss[n].rows[id].state
    ensures Stamped(ss[n].rows[id], ss[n + 1].rows[id], ss[n + 1].clock)
    ensures ss[n].clock < ss[n + 1].clock
  {
    RunStep(ss, es, n);
    RunSound(ss, es, n);
    StepStamps(ss[n], es[n], id);
  }

  lemma StepStamps(s: State, e: Step, id: JobId)
    requires Sound(s) && Enabled(s, e) && id in s.rows && id in Next(s, e).rows
    ensures StampedMove(s, Next(s, e), id)
  {
    if ByHandler(e) { HandlersStamp(s, e, id); }
    else if e.Wake? { WakeStamps(s, e, id); }
    else if AfterEviction(e) { EvictionStamps(s, e, id); }
    else { SchedulerStamps(s, e, id); }
  }

  /** The pid goes to the row of the current job and to no other column or row. */
  lemma PidRecorded(ss: seq<State>, es: seq<Step>, n: nat)
    requires Run(ss, es) && n < |es| && es[n].PidSeen?
    ensures ss[n + 1].rows.Keys == ss[n].rows.Keys
    ensures forall k :: k in ss[n].rows ==>
      ss[n + 1].rows[k] == if ss[n].current == Some(k) then ss[n].rows[k].(pid := Some(es[n].pid)) else ss[n].rows[k]
  {
    RunStep(ss, es, n);
    RunSound(ss, es, n);
    var id := ss[n].pc.job;
    if id in ss[n].rows { assert RowSound(ss[n], id); }
  }

  // ---- one job at a time ---------------------------------------------------------------------------

  predicate Starts(s: State, e: Step, id: JobId) { s.pc == Evicting(id) && e.EvictReturned? && e.opens }

  predicate Ends(e: Step) { e.Finished? || e.CrashRestart? }

  lemma StaysUntilEnd(s: State, e: Step)
    requires Enabled(s, e) && s.pc.Executing? && !Ends(e)
    ensures Next(s, e).pc.Executing? && Next(s, e).pc.job == s.pc.job
  {
  }

  lemma {:induction false} ExecutingSince(ss: seq<State>, es: seq<Step>, m: nat, n: nat, id: JobId)
    requires Run(ss, es) && m < n <= |es| && Starts(ss[m], es[m], id)
    requires forall k :: m < k < n ==> !Ends(es[k])
    ensures ss[n].pc.Executing? && ss[n].pc.job == id
  {
    RunStep(ss, es, n - 1);
    if m + 1 < n {
      ExecutingSince(ss, es, m, n - 1, id);
      StaysUntilEnd(ss[n - 1], es[n - 1]);
    }
  }

  /** Jobs run one after the other: between the starts of two jobs the first one ends, by finishing or
      by a crash, and until then the scheduler, and with it every log line, belongs to the first. */
  lemma SerialBlocks(ss: seq<State>, es: seq<Step>, m: nat, n: nat, a: JobId, b: JobId)
    requires Run(ss, es) && m < n < |es| && Starts(ss[m], es[m], a) && Starts(ss[n], es[n], b)
    ensures exists k :: m < k < n && Ends(es[k]) && BelongsTo(ss, m, k, a)
  {
    var k := m + 1;
    while k < n && !Ends(es[k])
      invariant m < k <= n
      invariant forall i :: m < i < k ==> !Ends(es[i])
    {
      k := k + 1;
    }
    forall i | m < i <= k ensures ss[i].pc.Executing? && ss[i].pc.job == a {
      ExecutingSince(ss, es, m, i, a);
    }
    assert BelongsTo(ss, m, k, a);
  }

  ghost predicate BelongsTo(ss: seq<State>, m: nat, k: nat, id: JobId)
    requires k < |ss|
  {
    forall i :: m < i <= k ==> ss[i].pc.Executing? && ss[i].pc.job == id
  }

  // ---- cancel --------------------------------------------------------------------------------------

  /** Every prune of the run names at least one terminal state, or none at all. */
  ghost predicate Filtered(es: seq<Step>)
  {
    forall k :: 0 <= k < |es| && es[k].Prune? ==> !Unfiltered(es[k].states)
  }

  /** The scheduler's job has its row. */
  predicate Tracked(s: State) { Busy(s) ==> s.pc.job in s.rows }

  lemma PruneSparesBusy(s: State, e: Step)
    requires Sound(s) && Tracked(s) && e.Prune? && !Unfiltered(e.states)
    ensures Tracked(Next(s, e))
  {
    if Busy(s) {
      assert RowSound(s, s.pc.job);
      VictimsExactly(s.rows, e.states, e.keepTag, e.cutoff, s.pc.job);
    }
  }

  lemma HandlersKeepRows(s: State, e: Step)
    requires Enabled(s, e) && !e.Prune? && ByHandler(e)
    ensures Next(s, e).rows.Keys >= s.rows.Keys
  {
  }

  lemma SchedulerKeepsRows(s: State, e: Step)
    requires Enabled(s, e) && !ByHandler(e)
    ensures Next(s, e).rows.Keys >= s.rows.Keys
  {
  }

  lemma {:induction false} AlwaysTracked(ss: seq<State>, es: seq<Step>, n: nat)
    requires Run(ss, es) && n <= |es| && Filtered(es)
    ensures Tracked(ss[n])
  {
    if n > 0 {
      AlwaysTracked(ss, es, n - 1);
      RunStep(ss, es, n - 1);
      var s, e := ss[n - 1], es[n - 1];
      if e.Prune? {
        PruneSparesBusy(s, e);
      } else {
        if ByHandler(e) { HandlersKeepRows(s, e); } else { SchedulerKeepsRows(s, e); }
        PcMoves(s, e);
      }
    }
  }

  /** When the deadline passes, the handler escalates to the runner of the job being cancelled whenever
      that job's row is still in the table; the runner is then there, and its own.  If prunes are filtered
      it does so only then. */
  lemma CancelKillsItsOwn(ss: seq<State>, es: seq<Step>, n: nat, task: TaskId)
    requires Run(ss, es) && n <= |es| && task in ss[n].cancels
    requires !ss[n].cancels[task].killed && !IsTerminal(ss[n], ss[n].cancels[task].job)
    ensures var s, c := ss[n], ss[n].cancels[task];
      && (c.job in s.rows ==> PollOutcome(s, c, true) == Signalled(c.job, Kill))
      && (Filtered(es) ==> (PollOutcome(s, c, true) == Signalled(c.job, Kill) <==> c.job in s.rows))
  {
    RunSound(ss, es, n);
    if Filtered(es) { AlwaysTracked(ss, es, n); }
    var c := ss[n].cancels[task];
    assert WaitSound(ss[n], c.job);
    if c.job in ss[n].rows { assert RowSound(ss[n], c.job); }
  }

  /** The first signal always goes to the job's own runner, and the assertion before it never fails. */
  lemma CancelSignalsItsOwn(ss: seq<State>, es: seq<Step>, n: nat, id: JobId, signal: Signal)
    requires Run(ss, es) && n <= |es|
    ensures CancelOutcome(ss[n], id, signal) ==
      if id !in ss[n].rows then ReplyUnknown else
        match ss[n].rows[id].state
        case Queued => ReplyOk
        case Starting => ReplyNotCurrent
        case Running => Signalled(id, signal)
        case _ => ReplyTerminal
  {
    RunSound(ss, es, n);
    if id in ss[n].rows { assert RowSound(ss[n], id); }
  }
}

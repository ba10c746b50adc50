/** The queue over whole runs: every step of the daemon is at most one operation on the pending list. */
module QueueRuns {
  import opened Common
  import opened Jobs
  import opened PriorityQueue
  import opened Prune
  import opened Machine
  import opened Invariants

  /** What a step does to the pending list. */
  datatype QueueOp =
    | Leave(gone: set<JobId>)         // these entries go, the others keep their order
    | Enter(id: JobId, row: Row)      // behind every entry of at least its priority
    | EnterFirst(id: JobId, row: Row) // ahead of every entry
    | ToFront(id: JobId)

  predicate Pops(s: State, e: Step, id: JobId)
  {
    e.Wake? && !s.leaseHeld && NextQueued(s.rows) == Some(id)
  }

  function OpOf(s: State, e: Step): QueueOp
  {
    match e
    case Submit(id, work, priority, next, parent, now) =>
      if next then EnterFirst(id, NewRow(work, FrontPriority(s.rows, None), parent, now))
      else Enter(id, NewRow(work, priority, parent, now))
    case Retry(id, original, force, now) =>
      if Retryable(s, original, force) then
        Enter(id, NewRow(s.rows[original].work, s.rows[original].priority, Some(original), now))
      else Leave({})
    case Bump(id) => if id in QueuedIds(s.rows) then ToFront(id) else Leave({})
    case Cancel(_, id, _, _) => if id in QueuedIds(s.rows) then Leave({id}) else Leave({})
    case Prune(states, keepTag, cutoff, dryRun) =>
      if dryRun then Leave({}) else Leave(Victims(s.rows, states, keepTag, cutoff))
    case Wake(_) =>
      if !s.leaseHeld && NextQueued(s.rows).Some? then Leave({NextQueued(s.rows).value}) else Leave({})
    case _ => Leave({})
  }

  function ApplyOp(t: Table, q: seq<JobId>, op: QueueOp): seq<JobId>
    requires forall k :: k in q ==> k in t
  {
    match op
    case Leave(gone) => Without(q, gone)
    case Enter(id, row) => InsertAt(q, Slot(t, q, row.priority), id)
    case EnterFirst(id, _) => [id] + q
    case ToFront(id) => [id] + Without(q, {id})
  }

  /** The table write behind each operation. */
  ghost predicate Wrote(t: Table, u: Table, op: QueueOp)
  {
    match op
    case Leave(gone) =>
      QueuedIds(u) == QueuedIds(t) - gone && forall k :: k in QueuedIds(u) ==> u[k] == t[k]
    case Enter(id, row) => Inserted(t, u, id, row)
    case EnterFirst(id, row) => Inserted(t, u, id, row) && row.priority == FrontPriority(t, None)
    case ToFront(id) => id in QueuedIds(t) && u == Bumped(t, id)
  }

  ghost predicate Inserted(t: Table, u: Table, id: JobId, row: Row)
  {
    && id !in t && row.state.Queued? && u == t[id := row]
    && forall k :: k in QueuedIds(t) ==> t[k].submitted < row.submitted
  }

  /** Writing a row that is not queued, without making it so, is nothing to the queue. */
  lemma WriteAside(t: Table, u: Table, id: JobId)
    requires u == if id in t && id in u then t[id := u[id]] else t
    requires id in t && id in u ==> !t[id].state.Queued? && !u[id].state.Queued?
    ensures Wrote(t, u, Leave({}))
  {
    assert QueuedIds(u) == QueuedIds(t);
  }

  lemma WriteOut(t: Table, u: Table, id: JobId)
    requires id in QueuedIds(t) && id in u && u == t[id := u[id]] && !u[id].state.Queued?
    ensures Wrote(t, u, Leave({id}))
  {
    assert QueuedIds(u) == QueuedIds(t) - {id};
  }

  lemma Untouched(t: Table)
    ensures Wrote(t, t, Leave({}))
  {
  }

  lemma EnqueueWrote(s: State, id: JobId, row: Row)
    requires Sound(s) && id !in s.used && row.state.Queued? && row.submitted > s.clock
    ensures Wrote(s.rows, Enqueue(s, id, row).rows, Enter(id, row))
    ensures row.priority == FrontPriority(s.rows, None) ==>
            Wrote(s.rows, Enqueue(s, id, row).rows, EnterFirst(id, row))
  {
  }

  lemma RetryWrote(s: State, id: JobId, original: JobId, force: bool, now: Stamp)
    requires Sound(s) && Enabled(s, Retry(id, original, force, now))
    ensures Wrote(s.rows, DoRetry(s, id, original, force, now).rows, OpOf(s, Retry(id, original, force, now)))
  {
    if Retryable(s, original, force) {
      var r := s.rows[original];
      EnqueueWrote(s, id, NewRow(r.work, r.priority, Some(original), now));
    } else {
      Untouched(s.rows);
    }
  }

  lemma CancelWrote(s: State, task: TaskId, id: JobId, signal: Signal, now: Stamp)
    ensures Wrote(s.rows, DoCancel(s, task, id, signal, now).rows, OpOf(s, Cancel(task, id, signal, now)))
  {
    var t := DoCancel(s, task, id, signal, now);
    if id in QueuedIds(s.rows) {
      assert t.rows == s.rows[id := t.rows[id]];
      WriteOut(s.rows, t.rows, id);
    } else {
      assert t.rows == s.rows;
      Untouched(s.rows);
    }
  }

  lemma PruneWrote(s: State, states: seq<StateName>, keepTag: string, cutoff: Stamp, dryRun: bool)
    ensures Wrote(s.rows, DoPrune(s, states, keepTag, cutoff, dryRun).rows,
                  OpOf(s, Step.Prune(states, keepTag, cutoff, dryRun)))
  {
    if dryRun {
      Untouched(s.rows);
    } else {
      var u := DoPrune(s, states, keepTag, cutoff, dryRun).rows;
      assert QueuedIds(u) == QueuedIds(s.rows) - Victims(s.rows, states, keepTag, cutoff);
    }
  }

  lemma WakeWrote(s: State, now: Stamp)
    ensures Wrote(s.rows, DoWake(s, now).rows, OpOf(s, Wake(now)))
  {
    if !s.leaseHeld && NextQueued(s.rows).Some? {
      WriteOut(s.rows, DoWake(s, now).rows, NextQueued(s.rows).value);
    } else {
      Untouched(s.rows);
    }
  }

  lemma CrashWrote(s: State, now: Stamp)
    ensures Wrote(s.rows, DoCrashRestart(s, now).rows, Leave({}))
  {
    assert QueuedIds(DoCrashRestart(s, now).rows) == QueuedIds(s.rows);
  }

  lemma WriteJob(s: State, u: Table)
    requires Sound(s) && Busy(s)
    requires u == if s.pc.job in s.rows && s.pc.job in u then s.rows[s.pc.job := u[s.pc.job]] else s.rows
    requires s.pc.job in u ==> !u[s.pc.job].state.Queued?
    ensures Wrote(s.rows, u, Leave({}))
  {
    if s.pc.job in s.rows { assert RowSound(s, s.pc.job); }
    WriteAside(s.rows, u, s.pc.job);
  }

  lemma EvictReturnedWrote(s: State, models: seq<string>, opens: bool, now: Stamp)
    requires Sound(s) && s.pc.Evicting?
    ensures Wrote(s.rows, DoEvictReturned(s, s.pc.job, models, opens, now).rows, Leave({}))
  {
    WriteJob(s, DoEvictReturned(s, s.pc.job, models, opens, now).rows);
  }

  lemma EvictWrote(s: State, e: Step)
    requires Sound(s) && Enabled(s, e) && (e.EvictReturned? || e.EvictRaised?)
    ensures Wrote(s.rows, Next(s, e).rows, Leave({}))
  {
    if e.EvictRaised? {
      WriteJob(s, GiveUp(s, s.pc.job, e.now).rows);
    } else {
      EvictReturnedWrote(s, e.models, e.opens, e.now);
    }
  }

  lemma ExecutingWrote(s: State, e: Step)
    requires Sound(s) && Enabled(s, e) && (e.PidSeen? || e.Finished?)
    ensures Wrote(s.rows, Next(s, e).rows, Leave({}))
  {
    if e.PidSeen? {
      WriteJob(s, Updated(s.rows, s.pc.job, Running, Some(e.pid), None, None, None));
    } else {
      WriteJob(s, DoFinished(s, s.pc.job, s.pc.stage.rc, s.pc.stage.clean, e.now).rows);
    }
  }

  predicate Writes(e: Step)
  {
    || e.Submit? || e.Retry? || e.Bump? || e.Cancel? || e.Doctor? || e.Prune? || e.Wake?
    || e.EvictReturned? || e.EvictRaised? || e.PidSeen? || e.Finished? || e.CrashRestart?
  }

  lemma OthersWroteNothing(s: State, e: Step)
    requires Enabled(s, e) && !Writes(e)
    ensures Next(s, e).rows == s.rows
  {
  }

  lemma RequestWrote(s: State, e: Step)
    requires Sound(s) && Enabled(s, e)
    requires e.Submit? || e.Retry? || e.Bump? || e.Cancel? || e.Doctor? || e.Prune?
    ensures Wrote(s.rows, Next(s, e).rows, OpOf(s, e))
  {
    match e
    case Submit(id, work, priority, next, parent, now) =>
      var p := if next then FrontPriority(s.rows, None) else priority;
      EnqueueWrote(s, id, NewRow(work, p, parent, now));
    case Retry(id, original, force, now) => RetryWrote(s, id, original, force, now);
    case Bump(id) => Untouched(s.rows);
    case Cancel(task, id, signal, now) => CancelWrote(s, task, id, signal, now);
    case Prune(states, keepTag, cutoff, dryRun) => PruneWrote(s, states, keepTag, cutoff, dryRun);
    case Doctor(fix, ids, minAge, alive, now) =>
      SoundDoctor(s, fix, ids, minAge, alive, now);
      Untouched(s.rows);
  }

  /** Every step of the daemon writes the table as one queue operation does. */
  lemma StepWrote(s: State, e: Step)
    requires Sound(s) && Enabled(s, e)
    ensures Wrote(s.rows, Next(s, e).rows, OpOf(s, e))
  {
    if e.Wake? {
      WakeWrote(s, e.now);
    } else if e.CrashRestart? {
      CrashWrote(s, e.now);
    } else if e.EvictReturned? || e.EvictRaised? {
      EvictWrote(s, e);
    } else if e.PidSeen? || e.Finished? {
      ExecutingWrote(s, e);
    } else if e.Submit? || e.Retry? || e.Bump? || e.Cancel? || e.Doctor? || e.Prune? {
      RequestWrote(s, e);
    } else {
      OthersWroteNothing(s, e);
      Untouched(s.rows);
    }
  }

  // ---- refinement ----------------------------------------------------------------------------------

  lemma OpRefines(t: Table, u: Table, op: QueueOp)
    requires Wrote(t, u, op)
    ensures Pending(u) == ApplyOp(t, Pending(t), op)
  {
    match op
    case Leave(gone) => LeaveRefines(t, u, gone);
    case Enter(id, row) => InsertRefines(t, id, row);
    case EnterFirst(id, row) => InsertNextRefines(t, id, row);
    case ToFront(id) => BumpRefines(t, id);
  }

  /** Every step of every run moves the pending list by exactly its operation: submit and retry insert
      behind, `--next` and bump put in front, cancel and prune take out, waking pops, and everything
      else, crash and restart included, leaves the list alone. */
  lemma StepRefines(ss: seq<State>, es: seq<Step>, n: nat)
    requires Run(ss, es) && n < |es|
    ensures Pending(ss[n + 1].rows) == ApplyOp(ss[n].rows, Pending(ss[n].rows), OpOf(ss[n], es[n]))
  {
    RunStep(ss, es, n);
    StepWrote(ss[n], es[n]);
    OpRefines(ss[n].rows, ss[n + 1].rows, OpOf(ss[n], es[n]));
  }

  /** A pop takes the head of the list and nothing else. */
  lemma PopTakesHead(ss: seq<State>, es: seq<Step>, n: nat, id: JobId)
    requires Run(ss, es) && n < |es| && Pops(ss[n], es[n], id)
    ensures Pending(ss[n].rows) == [id] + Pending(ss[n + 1].rows)
  {
    RunStep(ss, es, n);
    StepWrote(ss[n], es[n]);
    PopRefines(ss[n].rows, ss[n + 1].rows);
  }

  lemma {:induction false} WithoutOthers(q: seq<JobId>, gone: set<JobId>)
    requires forall k :: k in q ==> k !in gone
    ensures Without(q, gone) == q
  {
    if q != [] {
      assert q[0] in q && forall k :: k in q[1..] ==> k in q;
      WithoutOthers(q[1..], gone);
    }
  }

  /** A prune that names a terminal state, or none at all, touches neither the queue's order nor anyone's
      position in it. */
  lemma FilteredPruneKeepsQueue(ss: seq<State>, es: seq<Step>, n: nat, id: JobId)
    requires Run(ss, es) && n < |es| && es[n].Prune? && !Unfiltered(es[n].states)
    ensures Pending(ss[n + 1].rows) == Pending(ss[n].rows) && OnlyPops(ss[n], es[n])
    ensures PositionOf(ss[n + 1].rows, id) == PositionOf(ss[n].rows, id)
  {
    var t, u, gone := ss[n].rows, ss[n + 1].rows, OpOf(ss[n], es[n]).gone;
    forall k | k in QueuedIds(t) ensures k !in gone {
      VictimsExactly(t, es[n].states, es[n].keepTag, es[n].cutoff, k);
    }
    StepRefines(ss, es, n);
    WithoutOthers(Pending(t), gone);
    RunStep(ss, es, n);
    StepWrote(ss[n], es[n]);
    SamePosition(t, u, id);
  }

  lemma SamePosition(t: Table, u: Table, id: JobId)
    requires QueuedIds(u) == QueuedIds(t) && forall k :: k in QueuedIds(u) ==> u[k] == t[k]
    ensures PositionOf(u, id) == PositionOf(t, id)
  {
    if id in QueuedIds(t) { assert Ahead(u, QueuedIds(u), id) == Ahead(t, QueuedIds(t), id); }
  }

  /** Queued rows come through a crash and restart untouched and in the same order. */
  lemma QueueSurvivesCrash(ss: seq<State>, es: seq<Step>, n: nat)
    requires Run(ss, es) && n < |es| && es[n].CrashRestart?
    ensures Pending(ss[n + 1].rows) == Pending(ss[n].rows)
    ensures forall k :: k in QueuedIds(ss[n].rows) ==> k in ss[n + 1].rows && ss[n + 1].rows[k] == ss[n].rows[k]
  {
    StepRefines(ss, es, n);
    WithoutOthers(Pending(ss[n].rows), {});
    RunStep(ss, es, n);
    StepWrote(ss[n], es[n]);
  }

  /** The id a step pops, if it pops one. */
  function PoppedBy(s: State, e: Step): seq<JobId>
  {
    if e.Wake? && !s.leaseHeld && NextQueued(s.rows).Some? then [NextQueued(s.rows).value] else []
  }

  /** A pop, or a step that takes no entry out of the queue and puts none in. */
  predicate OnlyPops(s: State, e: Step)
  {
    e.Wake? || (OpOf(s, e).Leave? && OpOf(s, e).gone !! QueuedIds(s.rows))
  }

  /** The ids popped by the steps m, ..., n-1, in order. */
  ghost function Popped(ss: seq<State>, es: seq<Step>, m: nat, n: nat): seq<JobId>
    requires m <= n <= |es| && |ss| == |es| + 1
    decreases n - m
  {
    if m == n then [] else PoppedBy(ss[m], es[m]) + Popped(ss, es, m + 1, n)
  }

  lemma DrainStep(ss: seq<State>, es: seq<Step>, n: nat)
    requires Run(ss, es) && n < |es| && OnlyPops(ss[n], es[n])
    ensures PoppedBy(ss[n], es[n]) + Pending(ss[n + 1].rows) == Pending(ss[n].rows)
  {
    if es[n].Wake? && !ss[n].leaseHeld && NextQueued(ss[n].rows).Some? {
      PopTakesHead(ss, es, n, NextQueued(ss[n].rows).value);
    } else {
      NothingPopped(ss, es, n);
    }
  }

  lemma NothingPopped(ss: seq<State>, es: seq<Step>, n: nat)
    requires Run(ss, es) && n < |es| && OnlyPops(ss[n], es[n]) && PoppedBy(ss[n], es[n]) == []
    ensures Pending(ss[n + 1].rows) == Pending(ss[n].rows)
  {
    var op := OpOf(ss[n], es[n]);
    assert op.Leave? && op.gone !! QueuedIds(ss[n].rows);
    StepRefines(ss, es, n);
    WithoutOthers(Pending(ss[n].rows), op.gone);
  }

  lemma Chain(p: seq<JobId>, q: seq<JobId>, r: seq<JobId>, x: seq<JobId>, y: seq<JobId>)
    requires p + y == x && q + r == y
    ensures (p + q) + r == x
  {
    assert (p + q) + r == p + (q + r);
  }

  /** As long as nothing but pops touches the queue, whatever else happens, the ids popped and the ids
      still pending are together the list there was, in its order: nobody is skipped, repeated or
      overtaken, and each pop brings the queue one closer to empty. */
  lemma {:induction false} DrainsInOrder(ss: seq<State>, es: seq<Step>, m: nat, n: nat)
    requires Run(ss, es) && m <= n <= |es|
    requires forall k {:trigger OnlyPops(ss[k], es[k])} :: m <= k < n ==> OnlyPops(ss[k], es[k])
    ensures Popped(ss, es, m, n) + Pending(ss[n].rows) == Pending(ss[m].rows)
    decreases n - m
  {
    if m < n {
      DrainsInOrder(ss, es, m + 1, n);
      DrainsOnward(ss, es, m, n);
    }
  }

  lemma DrainsOnward(ss: seq<State>, es: seq<Step>, m: nat, n: nat)
    requires Run(ss, es) && m < n <= |es| && OnlyPops(ss[m], es[m])
    requires Popped(ss, es, m + 1, n) + Pending(ss[n].rows) == Pending(ss[m + 1].rows)
    ensures Popped(ss, es, m, n) + Pending(ss[n].rows) == Pending(ss[m].rows)
  {
    DrainStep(ss, es, m);
    Chain(PoppedBy(ss[m], es[m]), Popped(ss, es, m + 1, n), Pending(ss[n].rows),
          Pending(ss[m].rows), Pending(ss[m + 1].rows));
  }

  // ---- positions -----------------------------------------------------------------------------------

  /** How one operation moves a job that it neither takes out nor bumps. */
  function Delta(t: Table, op: QueueOp, id: JobId): int
    requires id in t
  {
    match op
    case Leave(gone) => -|gone * Ahead(t, QueuedIds(t), id)|
    case Enter(_, row) => if t[id].priority < row.priority then 1 else 0
    case EnterFirst(_, _) => 1
    case ToFront(other) => if other in Ahead(t, QueuedIds(t), id) then 0 else 1
  }

  lemma PositionLeave(t: Table, u: Table, gone: set<JobId>, id: JobId)
    requires Wrote(t, u, Leave(gone)) && id in QueuedIds(t) && id in QueuedIds(u)
    ensures PositionOf(u, id).value == PositionOf(t, id).value + Delta(t, Leave(gone), id)
  {
    var a, b := Ahead(t, QueuedIds(t), id), Ahead(u, QueuedIds(u), id);
    assert b == a - gone;
    assert a == (a - gone) + (gone * a);
  }

  lemma PositionEnter(t: Table, u: Table, other: JobId, row: Row, id: JobId)
    requires Inserted(t, u, other, row) && id in QueuedIds(t)
    ensures PositionOf(u, id).value == PositionOf(t, id).value + if t[id].priority < row.priority then 1 else 0
  {
    var a, b := Ahead(t, QueuedIds(t), id), Ahead(u, QueuedIds(u), id);
    assert QueuedIds(u) == QueuedIds(t) + {other};
    assert other !in a;
    assert b == if t[id].priority < row.priority then a + {other} else a;
  }

  lemma PositionFront(t: Table, other: JobId, id: JobId)
    requires other in QueuedIds(t) && id in QueuedIds(t) && other != id
    ensures PositionOf(Bumped(t, other), id).value == PositionOf(t, id).value + Delta(t, ToFront(other), id)
  {
    var u := Bumped(t, other);
    var a, b := Ahead(t, QueuedIds(t), id), Ahead(u, QueuedIds(u), id);
    assert QueuedIds(u) == QueuedIds(t);
    assert u[other].priority > u[id].priority;
    assert b == a + {other};
    assert other in a ==> b == a;
  }

  lemma PositionStep(t: Table, u: Table, op: QueueOp, id: JobId)
    requires Wrote(t, u, op) && id in QueuedIds(t) && id in QueuedIds(u) && op != ToFront(id)
    ensures PositionOf(u, id).value == PositionOf(t, id).value + Delta(t, op, id)
  {
    match op
    case Leave(gone) => PositionLeave(t, u, gone, id);
    case Enter(other, row) => PositionEnter(t, u, other, row, id);
    case EnterFirst(other, row) =>
      PositionEnter(t, u, other, row, id);
    case ToFront(other) => PositionFront(t, other, id);
  }

  /** How step n of a run moves job `id`. */
  ghost function MovedBy(ss: seq<State>, es: seq<Step>, n: nat, id: JobId): int
    requires n < |es| && |ss| == |es| + 1 && id in QueuedIds(ss[n].rows)
  {
    Delta(ss[n].rows, OpOf(ss[n], es[n]), id)
  }

  /** The moves of job `id` over the next steps, added up. */
  ghost function Moved(ss: seq<State>, es: seq<Step>, m: nat, n: nat, id: JobId): int
    requires m <= n <= |es| && |ss| == |es| + 1
    requires forall k :: m <= k < n ==> id in QueuedIds(ss[k].rows)
    decreases n - m
  {
    if m == n then 0 else
      assert id in QueuedIds(ss[m].rows);
      MovedBy(ss, es, m, id) + Moved(ss, es, m + 1, n, id)
  }

  lemma PositionMove(ss: seq<State>, es: seq<Step>, n: nat, id: JobId)
    requires Run(ss, es) && n < |es| && es[n] != Bump(id)
    requires id in QueuedIds(ss[n].rows) && id in QueuedIds(ss[n + 1].rows)
    ensures PositionOf(ss[n + 1].rows, id).value == PositionOf(ss[n].rows, id).value + MovedBy(ss, es, n, id)
  {
    RunStep(ss, es, n);
    StepWrote(ss[n], es[n]);
    PositionStep(ss[n].rows, ss[n + 1].rows, OpOf(ss[n], es[n]), id);
  }

  /** While a job stays queued and is not bumped, its position is its earlier position, minus the pops,
      cancels and deletions of jobs ahead of it, plus the inserts landing ahead of it and the bumps from
      behind it. */
  lemma {:induction false} PositionAccounting(ss: seq<State>, es: seq<Step>, m: nat, n: nat, id: JobId)
    requires Run(ss, es) && m <= n <= |es|
    requires forall k :: m <= k <= n ==> id in QueuedIds(ss[k].rows)
    requires forall k :: m <= k < n ==> es[k] != Bump(id)
    ensures PositionOf(ss[n].rows, id).value == PositionOf(ss[m].rows, id).value + Moved(ss, es, m, n, id)
    decreases n - m
  {
    if m < n {
      PositionAccounting(ss, es, m + 1, n, id);
      PositionOnward(ss, es, m, n, id);
    }
  }

  lemma PositionOnward(ss: seq<State>, es: seq<Step>, m: nat, n: nat, id: JobId)
    requires Run(ss, es) && m < n <= |es| && es[m] != Bump(id)
    requires forall k :: m <= k <= n ==> id in QueuedIds(ss[k].rows)
    requires PositionOf(ss[n].rows, id).value
             == PositionOf(ss[m + 1].rows, id).value + Moved(ss, es, m + 1, n, id)
    ensures PositionOf(ss[n].rows, id).value == PositionOf(ss[m].rows, id).value + Moved(ss, es, m, n, id)
  {
    PositionMove(ss, es, m, id);
  }

  // ---- first come, first served --------------------------------------------------------------------

  /** The only ways out of the queue. */
  predicate LeavesBy(s: State, e: Step, id: JobId)
  {
    || Pops(s, e, id)
    || (e.Cancel? && e.id == id)
    || (e.Prune? && Unfiltered(e.states) && !e.dryRun)
  }

  lemma GoneByOp(t: Table, u: Table, op: QueueOp, id: JobId)
    requires Wrote(t, u, op) && id in QueuedIds(t)
    ensures id !in QueuedIds(u) ==> op.Leave? && id in op.gone
    ensures id in QueuedIds(u) && op != ToFront(id) ==> u[id] == t[id]
  {
  }

  lemma OpLeavesBy(s: State, e: Step, id: JobId)
    requires id in QueuedIds(s.rows) && OpOf(s, e).Leave? && id in OpOf(s, e).gone
    ensures LeavesBy(s, e, id)
  {
    if e.Prune? && !Unfiltered(e.states) {
      VictimsExactly(s.rows, e.states, e.keepTag, e.cutoff, id);
    }
  }

  lemma LeavesOnlyBy(s: State, e: Step, id: JobId)
    requires Sound(s) && Enabled(s, e) && id in QueuedIds(s.rows) && id !in QueuedIds(Next(s, e).rows)
    ensures LeavesBy(s, e, id)
  {
    StepWrote(s, e);
    GoneByOp(s.rows, Next(s, e).rows, OpOf(s, e), id);
    OpLeavesBy(s, e, id);
  }

  /** A job that was queued and no longer is was popped, cancelled or deleted in between. */
  lemma {:induction false} LeftSomewhere(ss: seq<State>, es: seq<Step>, m: nat, n: nat, id: JobId) returns (k: nat)
    requires Run(ss, es) && m <= n <= |es|
    requires id in QueuedIds(ss[m].rows) && id !in QueuedIds(ss[n].rows)
    ensures m <= k < n && LeavesBy(ss[k], es[k], id)
  {
    if id in QueuedIds(ss[n - 1].rows) {
      RunStep(ss, es, n - 1);
      LeavesOnlyBy(ss[n - 1], es[n - 1], id);
      k := n - 1;
    } else {
      k := LeftSomewhere(ss, es, m, n - 1, id);
    }
  }

  lemma RankKept(s: State, e: Step, id: JobId)
    requires Sound(s) && Enabled(s, e) && e != Bump(id)
    requires id in QueuedIds(s.rows) && id in QueuedIds(Next(s, e).rows)
    ensures Next(s, e).rows[id] == s.rows[id]
  {
    StepWrote(s, e);
    GoneByOp(s.rows, Next(s, e).rows, OpOf(s, e), id);
  }

  /** A job that is queued now and at the start was queued throughout, and unless bumped its row is
      still the same. */
  lemma {:induction false} StillTheSame(ss: seq<State>, es: seq<Step>, m: nat, n: nat, id: JobId)
    requires Run(ss, es) && m <= n <= |es| && (forall k :: m <= k < n ==> es[k] != Bump(id))
    requires id in QueuedIds(ss[m].rows) && id in QueuedIds(ss[n].rows)
    ensures ss[n].rows[id] == ss[m].rows[id]
  {
    if m < n {
      QueuedBefore(ss, es, m, n - 1, id);
      StillTheSame(ss, es, m, n - 1, id);
      RunStep(ss, es, n - 1);
      RankKept(ss[n - 1], es[n - 1], id);
    }
  }

  lemma QueuedBefore(ss: seq<State>, es: seq<Step>, m: nat, n: nat, id: JobId)
    requires Run(ss, es) && m <= n < |es| && id in QueuedIds(ss[m].rows) && id in QueuedIds(ss[n + 1].rows)
    ensures Sound(ss[n]) && id in QueuedIds(ss[n].rows)
  {
    UsedGrows(ss, es, m, n);
    RunSound(ss, es, m);
    RunSound(ss, es, n);
    RunKept(ss, es, n);
    assert RowSound(ss[m], id);
    assert id in ss[n].used && id in ss[n + 1].rows;
    assert RowMoves(ss[n], ss[n + 1], id);
  }

  lemma {:induction false} UsedGrows(ss: seq<State>, es: seq<Step>, m: nat, n: nat)
    requires Run(ss, es) && m <= n <= |es|
    ensures ss[m].used <= ss[n].used && ss[m].clock <= ss[n].clock
  {
    if m < n {
      UsedGrows(ss, es, m, n - 1);
      RunKept(ss, es, n - 1);
    }
  }

  lemma EarlierGoesFirst(ss: seq<State>, es: seq<Step>, a: JobId, b: JobId, i: nat, j: nat, n: nat)
    requires Run(ss, es) && i < j < n < |es|
    requires a !in ss[i].rows && a in QueuedIds(ss[i + 1].rows)
    requires b !in ss[j].rows && b in QueuedIds(ss[j + 1].rows)
    requires ss[i + 1].rows[a].priority == ss[j + 1].rows[b].priority
    requires forall k :: 0 <= k < |es| ==> es[k] != Bump(a) && es[k] != Bump(b)
    requires a in QueuedIds(ss[n].rows) && b in QueuedIds(ss[n].rows)
    ensures Before(ss[n].rows, a, b)
  {
    StillTheSame(ss, es, i + 1, n, a);
    StillTheSame(ss, es, j + 1, n, b);
    EntersWithNow(ss, es, i, a);
    EntersWithNow(ss, es, j, b);
    UsedGrows(ss, es, i + 1, j);
  }

  /** Of two jobs that enter with the same priority and are never bumped, the later one is popped only
      after the earlier one has left: popped, cancelled, or deleted by an unfiltered prune.  Other
      submits, bumps, cancels, pops, crashes and restarts in between make no difference. */
  lemma FirstComeFirstServed(ss: seq<State>, es: seq<Step>, a: JobId, b: JobId, i: nat, j: nat, n: nat)
    requires Run(ss, es) && i < j < n < |es|
    requires a !in ss[i].rows && a in QueuedIds(ss[i + 1].rows)
    requires b !in ss[j].rows && b in QueuedIds(ss[j + 1].rows)
    requires ss[i + 1].rows[a].priority == ss[j + 1].rows[b].priority
    requires forall k :: 0 <= k < |es| ==> es[k] != Bump(a) && es[k] != Bump(b)
    requires Pops(ss[n], es[n], b)
    ensures exists m :: i < m < n && LeavesBy(ss[m], es[m], a)
  {
    if a in QueuedIds(ss[n].rows) {
      EarlierGoesFirst(ss, es, a, b, i, j, n);
      assert false;
    }
    var m := LeftSomewhere(ss, es, i + 1, n, a);
  }

  /** A new row carries the clock of its own step. */
  lemma EntersWithNow(ss: seq<State>, es: seq<Step>, i: nat, a: JobId)
    requires Run(ss, es) && i < |es| && a !in ss[i].rows && a in QueuedIds(ss[i + 1].rows)
    ensures ss[i].clock < ss[i + 1].rows[a].submitted <= ss[i + 1].clock
  {
    RunStep(ss, es, i);
    RunSound(ss, es, i + 1);
    StepWrote(ss[i], es[i]);
    assert RowSound(ss[i + 1], a);
    match OpOf(ss[i], es[i])
    case Enter(_, _) =>
    case EnterFirst(_, _) =>
    case _ =>
  }

  // ---- wakeups -------------------------------------------------------------------------------------

  /** Someone is queued only if the scheduler has been told. */
  predicate Notified(s: State) { QueuedIds(s.rows) != {} ==> s.notify }

  /** The steps that set the notify flag. */
  predicate Tells(s: State, e: Step)
  {
    || e.Submit?
    || (e.Retry? && Retryable(s, e.original, e.force))
    || (e.Release? && s.leaseId == e.claimed)
  }

  /** The flag after a step: set by an arrival, cleared by a crash and by a wake that finds no job. */
  lemma NotifyMoves(s: State, e: Step)
    requires Enabled(s, e)
    ensures Next(s, e).notify <==>
      !e.CrashRestart? && (Tells(s, e) || (s.notify && !(e.Wake? && !s.leaseHeld && QueuedIds(s.rows) == {})))
  {
  }

  /** No step but a crash loses a wakeup; a crash loses it exactly when rows are queued at that moment. */
  lemma NoLostWakeup(s: State, e: Step)
    requires Sound(s) && Enabled(s, e)
    ensures !e.CrashRestart? && Notified(s) ==> Notified(Next(s, e))
    ensures e.CrashRestart? ==> (Notified(Next(s, e)) <==> QueuedIds(s.rows) == {})
  {
    StepWrote(s, e);
    NotifyMoves(s, e);
  }

  /** Nobody has set the flag in the steps k+1, ..., n-1. */
  ghost predicate NobodyTold(ss: seq<State>, es: seq<Step>, k: nat, n: nat)
    requires n <= |es| && |ss| == |es| + 1
  {
    forall j :: k < j < n ==> !Tells(ss[j], es[j])
  }

  ghost predicate Forgotten(ss: seq<State>, es: seq<Step>, k: nat, n: nat)
    requires n <= |es| && |ss| == |es| + 1
  {
    k < n && es[k].CrashRestart? && NobodyTold(ss, es, k, n)
  }

  /** In any state of any run, jobs are queued without the scheduler having been told exactly when there
      was a crash and no submit, retry or lease release since. */
  lemma {:induction false} ForgottenExactly(ss: seq<State>, es: seq<Step>, n: nat)
    requires Run(ss, es) && n <= |es|
    ensures !Notified(ss[n]) <==> QueuedIds(ss[n].rows) != {} && exists k: nat :: Forgotten(ss, es, k, n)
  {
    if n > 0 {
      ForgottenExactly(ss, es, n - 1);
      RunStep(ss, es, n - 1);
      StepWrote(ss[n - 1], es[n - 1]);
      NotifyMoves(ss[n - 1], es[n - 1]);
      ForgottenStep(ss, es, n - 1, n);
    }
  }

  lemma ForgottenStep(ss: seq<State>, es: seq<Step>, m: nat, n: nat)
    requires m + 1 == n <= |es| && |ss| == |es| + 1
    ensures (exists k: nat :: Forgotten(ss, es, k, n)) <==>
      es[m].CrashRestart? || (!Tells(ss[m], es[m]) && exists k: nat :: Forgotten(ss, es, k, m))
  {
    if es[m].CrashRestart? {
      assert Forgotten(ss, es, m, n);
    } else if k: nat :| Forgotten(ss, es, k, n) {
      assert Forgotten(ss, es, k, m);
    } else if !Tells(ss[m], es[m]) {
      forall k: nat ensures !Forgotten(ss, es, k, m) {
        assert Forgotten(ss, es, k, m) ==> Forgotten(ss, es, k, n);
      }
    }
  }

  /** After a restart that left queued rows unattended, the next arrival or lease release wakes the
      scheduler for all of them. */
  lemma WakeupRestored(s: State, e: Step)
    requires Enabled(s, e)
    requires Tells(s, e)
    ensures Notified(Next(s, e))
  {
    NotifyMoves(s, e);
  }
}

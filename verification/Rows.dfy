/** The job table over whole runs: which rows there are, and which step writes which column. */
module Rows {
  import opened Common
  import opened Jobs
  import opened Machine
  import opened Invariants
  import opened QueueRuns
  import opened History
  import opened Archive
  import opened Outcomes

  // ---- which rows there are ------------------------------------------------------------------------

  /** A submit, or the retry of a job that may be retried. */
  predicate Inserts(s: State, e: Step, id: JobId)
  {
    || (e.Submit? && e.id == id)
    || (e.Retry? && e.id == id && IsTerminal(s, e.original) && (e.force || !s.rows[e.original].state.Done?))
  }

  /** Inserted at step m and not deleted before state n. */
  ghost predicate ListedSince(ss: seq<State>, es: seq<Step>, m: nat, n: nat, id: JobId)
    requires n <= |es| && |ss| == |es| + 1
  {
    m < n && Inserts(ss[m], es[m], id) && forall j :: m < j < n ==> !Deletes(ss[j], es[j], id)
  }

  lemma RowStep(s: State, e: Step, id: JobId)
    requires Sound(s) && Enabled(s, e)
    ensures id in Next(s, e).rows <==> (id in s.rows && !Deletes(s, e, id)) || Inserts(s, e, id)
  {
    if e.Submit? || e.Retry? {
      InsertsRow(s, e, id);
    } else if ByHandler(e) {
      RequestsInsertNothing(s, e, id);
    } else {
      SchedulerRows(s, e);
    }
  }

  lemma InsertsRow(s: State, e: Step, id: JobId)
    requires Enabled(s, e) && (e.Submit? || e.Retry?)
    ensures id in Next(s, e).rows <==> id in s.rows || Inserts(s, e, id)
  {
  }

  lemma RequestsInsertNothing(s: State, e: Step, id: JobId)
    requires Enabled(s, e) && ByHandler(e) && !e.Submit? && !e.Retry?
    ensures id in Next(s, e).rows <==> id in s.rows && !Deletes(s, e, id)
  {
  }

  lemma SchedulerRows(s: State, e: Step)
    requires Enabled(s, e) && !ByHandler(e)
    ensures Next(s, e).rows.Keys == s.rows.Keys
  {
  }

  lemma ListedSinceStep(ss: seq<State>, es: seq<Step>, k: nat, n: nat, id: JobId)
    requires k + 1 == n <= |es| && |ss| == |es| + 1
    ensures (exists m: nat :: ListedSince(ss, es, m, n, id))
            <==> Inserts(ss[k], es[k], id)
                 || (!Deletes(ss[k], es[k], id) && exists m: nat :: ListedSince(ss, es, m, k, id))
  {
    if Inserts(ss[k], es[k], id) { assert ListedSince(ss, es, k, n, id); }
    if !Deletes(ss[k], es[k], id) {
      if m: nat :| ListedSince(ss, es, m, k, id) { assert ListedSince(ss, es, m, n, id); }
    }
    if m: nat :| ListedSince(ss, es, m, n, id) {
      assert m < k ==> ListedSince(ss, es, m, k, id);
    }
  }

  /** In every state of every run a job has its row exactly when it was submitted, or made by a retry that was
      allowed, and no prune has deleted it since.  No crash loses one. */
  lemma {:induction false} RowsExactly(ss: seq<State>, es: seq<Step>, n: nat, id: JobId)
    requires Run(ss, es) && n <= |es|
    ensures id in ss[n].rows <==> exists m: nat :: ListedSince(ss, es, m, n, id)
  {
    if n > 0 {
      RowsExactly(ss, es, n - 1, id);
      ListedSinceStep(ss, es, n - 1, n, id);
      RunStep(ss, es, n - 1);
      RowStep(ss[n - 1], es[n - 1], id);
    }
  }

  // ---- who writes which column ---------------------------------------------------------------------

  lemma HandlersWriteNothing(s: State, e: Step, id: JobId)
    requires Sound(s) && Enabled(s, e) && ByHandler(e) && id in s.rows && id in Next(s, e).rows && id in s.used
    requires !CancelledIn(s, e, id)
    ensures var a, b := s.rows[id], Next(s, e).rows[id];
      b == if e == Bump(id) then a.(priority := b.priority) else a
  {
    if e.Doctor? {
      DoctorWrites(s, e, id);
    } else if e.Bump? {
      BumpWrites(s, e.id, id);
    } else {
      OthersWriteNothing(s, e, id);
    }
  }

  lemma DoctorWrites(s: State, e: Step, id: JobId)
    requires Sound(s) && Enabled(s, e) && e.Doctor? && id in s.rows
    ensures id in Next(s, e).rows && Next(s, e).rows[id] == s.rows[id]
  {
    SoundDoctor(s, e.fix, e.ids, e.minAge, e.alive, e.now);
  }

  lemma BumpWrites(s: State, bumped: JobId, id: JobId)
    requires id in s.rows
    ensures id in DoBump(s, bumped).rows
    ensures var a, b := s.rows[id], DoBump(s, bumped).rows[id];
      b == if bumped == id then a.(priority := b.priority) else a
  {
  }

  lemma OthersWriteNothing(s: State, e: Step, id: JobId)
    requires Enabled(s, e) && ByHandler(e) && !e.Doctor? && !e.Bump? && !CancelledIn(s, e, id)
    requires id in s.rows && id in Next(s, e).rows && id in s.used
    ensures Next(s, e).rows[id] == s.rows[id]
  {
  }

  /** The scheduler and its tasks write the row of their own job, or all active ones after a crash. */
  predicate Touches(s: State, e: Step, id: JobId)
  {
    || Pops(s, e, id)
    || (Busy(s) && s.pc.job == id
        && (e.EvictReturned? || e.EvictRaised? || e.PidSeen? || e.Finished? || e.CrashRestart?))
  }

  lemma SchedulerWritesOwn(s: State, e: Step, id: JobId)
    requires Enabled(s, e) && !ByHandler(e) && !Touches(s, e, id) && id in s.rows && id in Next(s, e).rows
    requires RowSound(s, id) && Control(s)
    ensures Next(s, e).rows[id] == s.rows[id]
  {
  }

  lemma PopWrites(s: State, e: Step, id: JobId)
    requires Enabled(s, e) && Pops(s, e, id)
    ensures id in s.rows && id in Next(s, e).rows
    ensures Next(s, e).rows[id] == s.rows[id].(state := JobState.Starting, started := Some(e.now))
  {
  }

  lemma StartWrites(s: State, e: Step, id: JobId)
    requires Enabled(s, e) && Starts(s, e, id) && id in s.rows
    ensures id in Next(s, e).rows
    ensures Next(s, e).rows[id] == s.rows[id].(state := JobState.Running, started := Some(e.now))
  {
  }

  lemma CutOffWrites(s: State, e: Step, id: JobId)
    requires Enabled(s, e) && CutOff(s, e, id) && id in s.rows && RowSound(s, id) && Control(s)
    ensures id in Next(s, e).rows
    ensures Next(s, e).rows[id] == s.rows[id].(state := Failed, exitCode := Some(-1), finished := Some(TimeOf(e)))
  {
  }

  lemma PidWrites(s: State, e: Step, id: JobId)
    requires Enabled(s, e) && e.PidSeen? && Busy(s) && s.pc.job == id && id in s.rows
    requires RowSound(s, id) && Control(s)
    ensures id in Next(s, e).rows && Next(s, e).rows[id] == s.rows[id].(pid := Some(e.pid))
  {
  }

  /** What a step makes of row a: a row that is cancelled, popped, started or cut off gets the state and the
      times of just that; the pid is written when it is seen, the number by the job's own bump; the state and
      the code of a finished run are told by module Outcomes; and every other row is as it was. */
  predicate WroteRow(s: State, e: Step, id: JobId, a: Row, b: Row)
  {
    if CancelledIn(s, e, id) then b == a.(state := JobState.Cancelled, finished := Some(e.now))
    else if Pops(s, e, id) then b == a.(state := JobState.Starting, started := Some(e.now))
    else if Starts(s, e, id) then b == a.(state := JobState.Running, started := Some(e.now))
    else if CutOff(s, e, id) then b == a.(state := Failed, exitCode := Some(-1), finished := Some(TimeOf(e)))
    else if e.PidSeen? && s.current == Some(id) then b == a.(pid := Some(e.pid))
    else if e == Bump(id) then b == a.(priority := b.priority)
    else if e.Finished? && s.current == Some(id) then
      b == a.(state := b.state, exitCode := b.exitCode, finished := Some(e.now))
    else b == a
  }

  /** For every row that is there before and after a step of a run; so work, parent and submission time never
      change. */
  lemma RowWrites(ss: seq<State>, es: seq<Step>, n: nat, id: JobId)
    requires Run(ss, es) && n < |es| && id in ss[n].rows && id in ss[n + 1].rows
    ensures WroteRow(ss[n], es[n], id, ss[n].rows[id], ss[n + 1].rows[id])
  {
    RunStep(ss, es, n);
    assert RowSound(ss[n], id);
    if es[n].Finished? && ss[n].current == Some(id) {
      FinishWrites(ss, es, n, id);
    } else if ByHandler(es[n]) {
      HandlersWrote(ss[n], es[n], id);
    } else {
      SchedulerWrote(ss[n], es[n], id);
    }
  }

  lemma HandlersWrote(s: State, e: Step, id: JobId)
    requires Sound(s) && Enabled(s, e) && ByHandler(e) && id in s.rows && id in Next(s, e).rows && id in s.used
    ensures WroteRow(s, e, id, s.rows[id], Next(s, e).rows[id])
  {
    if CancelledIn(s, e, id) { CancelWrites(s, e, id); } else { HandlersWriteNothing(s, e, id); }
    WroteByHandler(s, e, id, s.rows[id], Next(s, e).rows[id]);
  }

  lemma WroteByHandler(s: State, e: Step, id: JobId, a: Row, b: Row)
    requires ByHandler(e)
    requires b == if CancelledIn(s, e, id) then a.(state := JobState.Cancelled, finished := Some(e.now))
                  else if e == Bump(id) then a.(priority := b.priority) else a
    ensures WroteRow(s, e, id, a, b)
  {
  }

  lemma SchedulerWrote(s: State, e: Step, id: JobId)
    requires Sound(s) && Enabled(s, e) && !ByHandler(e) && !(e.Finished? && s.current == Some(id))
    requires id in s.rows && id in Next(s, e).rows && RowSound(s, id)
    ensures WroteRow(s, e, id, s.rows[id], Next(s, e).rows[id])
  {
    if Pops(s, e, id) {
      PopWrites(s, e, id);
    } else if Starts(s, e, id) {
      StartWrites(s, e, id);
    } else if CutOff(s, e, id) {
      CutOffWrites(s, e, id);
    } else if e.PidSeen? && s.current == Some(id) {
      PidWrites(s, e, id);
    } else {
      SchedulerWritesOwn(s, e, id);
    }
  }

  lemma CancelWrites(s: State, e: Step, id: JobId)
    requires Enabled(s, e) && CancelledIn(s, e, id)
    ensures id in Next(s, e).rows
    ensures Next(s, e).rows[id] == s.rows[id].(state := JobState.Cancelled, finished := Some(e.now))
  {
  }

  lemma FinishWrites(ss: seq<State>, es: seq<Step>, n: nat, id: JobId)
    requires Run(ss, es) && n < |es| && es[n].Finished? && ss[n].current == Some(id) && id in ss[n].rows
    ensures id in ss[n + 1].rows
    ensures var a, b := ss[n].rows[id], ss[n + 1].rows[id];
      b == a.(state := b.state, exitCode := b.exitCode, finished := Some(es[n].now))
  {
    RunSound(ss, es, n);
    var k, how := FinishedHasRunEnd(ss, es, n);
    ExitDecides(ss, es, k, n, id, how);
  }
}

/** How each job ends, read off the run: which step decides it, and what the row and the clients are told. */
module Outcomes {
  import opened Common
  import opened Jobs
  import opened Events
  import opened Machine
  import opened Invariants
  import opened QueueRuns
  import opened History
  import opened Streams
  import opened Delivery
  import Estimates

  /** Step k ends the run of job `id`, and step n is where the scheduler finishes it. */
  ghost predicate EndsRun(ss: seq<State>, es: seq<Step>, k: nat, n: nat, id: JobId, how: RunEnd)
    requires n < |es| && |ss| == |es| + 1
  {
    && k < n && es[k] == RunEnded(how) && Executes(ss[k], id)
    && es[n].Finished? && forall j :: k < j < n ==> !Ends(es[j])
  }

  /** What a run that ends like this comes to. */
  function StateAfter(how: RunEnd): JobState { if how == Exited(0) then Done else Failed }

  function CodeAfter(how: RunEnd): int { if how.Exited? then how.rc else -1 }

  predicate Drains(s: State, id: JobId, how: RunEnd)
  {
    && s.pc.Executing? && s.pc.job == id && s.pc.stage.Draining?
    && Verdict(s.pc.stage.rc, s.pc.stage.clean) == StateAfter(how) && s.pc.stage.rc == CodeAfter(how)
  }

  lemma EndedDrains(s: State, how: RunEnd, id: JobId)
    requires Enabled(s, RunEnded(how)) && Executes(s, id)
    ensures Drains(Next(s, RunEnded(how)), id, how)
  {
  }

  lemma DrainsOn(s: State, e: Step, id: JobId, how: RunEnd)
    requires Enabled(s, e) && Drains(s, id, how) && !Ends(e)
    ensures Drains(Next(s, e), id, how)
  {
  }

  lemma {:induction false} DrainsUntil(ss: seq<State>, es: seq<Step>, k: nat, n: nat, id: JobId, how: RunEnd)
    requires Run(ss, es) && k < n <= |es| && es[k] == RunEnded(how) && Executes(ss[k], id)
    requires forall j :: k < j < n ==> !Ends(es[j])
    ensures Drains(ss[n], id, how)
  {
    RunStep(ss, es, n - 1);
    if k == n - 1 {
      EndedDrains(ss[k], how, id);
    } else {
      DrainsUntil(ss, es, k, n - 1, id, how);
      DrainsOn(ss[n - 1], es[n - 1], id, how);
    }
  }

  /** The child's exit decides: its code is the exit code in the row and in the terminal event, and the job
      is done if that code is 0 and failed otherwise.  A run that raised is failed with -1. */
  lemma ExitDecides(ss: seq<State>, es: seq<Step>, k: nat, n: nat, id: JobId, how: RunEnd)
    requires Run(ss, es) && n < |es| && EndsRun(ss, es, k, n, id, how)
    ensures ClosedWith(FeedIn(ss[n + 1], id), EndEv(StateAfter(how), Some(CodeAfter(how))))
    ensures ss[n + 1].rows.Keys == ss[n].rows.Keys
    ensures forall i :: i in ss[n].rows ==>
      ss[n + 1].rows[i] ==
        if i != id then ss[n].rows[i]
        else ss[n].rows[i].(state := StateAfter(how), exitCode := Some(CodeAfter(how)), finished := Some(es[n].now))
  {
    DrainsUntil(ss, es, k, n, id, how);
    RunStep(ss, es, n);
    var p := ss[n].pc.stage;
    FinishCloses(ss, es, n, id, p.rc, p.clean, p.orphan);
    FinishedRows(ss[n], es[n], id, how);
  }

  lemma FinishedRows(s: State, e: Step, id: JobId, how: RunEnd)
    requires Enabled(s, e) && e.Finished? && Drains(s, id, how)
    ensures Next(s, e).rows.Keys == s.rows.Keys
    ensures forall i :: i in s.rows ==>
      Next(s, e).rows[i] ==
        if i != id then s.rows[i]
        else s.rows[i].(state := StateAfter(how), exitCode := Some(CodeAfter(how)), finished := Some(e.now))
  {
  }

  lemma DrainingStep(s: State, e: Step)
    requires Enabled(s, e) && Next(s, e).pc.Executing? && Next(s, e).pc.stage.Draining?
    ensures !Ends(e) && s.pc.Executing? && s.pc.job == Next(s, e).pc.job
    ensures e.RunEnded? || s.pc == Next(s, e).pc
  {
    if e.Wake? { WakeMoves(s, e.now); }
  }

  lemma {:induction false} RunEndedBefore(ss: seq<State>, es: seq<Step>, n: nat) returns (k: nat, how: RunEnd)
    requires Run(ss, es) && n <= |es| && ss[n].pc.Executing? && ss[n].pc.stage.Draining?
    ensures k < n && es[k] == RunEnded(how) && Executes(ss[k], ss[n].pc.job)
    ensures forall j :: k < j < n ==> !Ends(es[j])
  {
    RunStep(ss, es, n - 1);
    DrainingStep(ss[n - 1], es[n - 1]);
    if es[n - 1].RunEnded? {
      k, how := n - 1, es[n - 1].how;
    } else {
      k, how := RunEndedBefore(ss, es, n - 1);
    }
  }

  /** And no job is finished without its run having ended. */
  lemma FinishedHasRunEnd(ss: seq<State>, es: seq<Step>, n: nat) returns (k: nat, how: RunEnd)
    requires Run(ss, es) && n < |es| && es[n].Finished?
    ensures ss[n].pc.Executing? && EndsRun(ss, es, k, n, ss[n].pc.job, how)
  {
    RunStep(ss, es, n);
    k, how := RunEndedBefore(ss, es, n);
  }

  // ---- what becomes of a job -----------------------------------------------------------------------

  /** Step k decides what becomes of job `id`: it is cancelled in the queue, given up during its eviction,
      cut off by a crash, or finished. */
  ghost predicate Fate(ss: seq<State>, es: seq<Step>, k: nat, id: JobId, state: JobState, code: Option<int>)
    requires k < |es| && |ss| == |es| + 1
  {
    || (CancelledIn(ss[k], es[k], id) && state == Cancelled && code == None)
    || (CutOff(ss[k], es[k], id) && state == Failed && code == Some(-1))
    || FinishedAs(ss, es, k, id, state, code)
  }

  predicate CancelledIn(s: State, e: Step, id: JobId) { e.Cancel? && e.id == id && id in QueuedIds(s.rows) }

  /** The clock reading of a step that can decide. */
  function TimeOf(e: Step): Stamp
  {
    match e
    case Cancel(_, _, _, now) => now
    case EvictReturned(_, _, now) => now
    case EvictRaised(now) => now
    case CrashRestart(now) => now
    case Finished(now) => now
    case _ => 0
  }

  predicate CutOff(s: State, e: Step, id: JobId)
  {
    || (s.pc == Evicting(id) && (e.EvictRaised? || (e.EvictReturned? && !e.opens)))
    || (e.CrashRestart? && Busy(s) && s.pc.job == id)
  }

  ghost predicate FinishedAs(ss: seq<State>, es: seq<Step>, k: nat, id: JobId, state: JobState, code: Option<int>)
    requires k < |es| && |ss| == |es| + 1
  {
    exists j, how :: EndsRun(ss, es, j, k, id, how) && state == StateAfter(how) && code == Some(CodeAfter(how))
  }

  predicate Ended(r: Row, state: JobState, code: Option<int>, now: Stamp)
  {
    r.state == state && r.exitCode == code && r.finished == Some(now)
  }

  lemma CutOffEnds(s: State, e: Step, id: JobId)
    requires Sound(s) && Enabled(s, e) && CutOff(s, e, id) && id in s.rows
    ensures id in Next(s, e).rows && Ended(Next(s, e).rows[id], Failed, Some(-1), TimeOf(e))
  {
    assert RowSound(s, id);
  }

  lemma CancelEnds(s: State, e: Step, id: JobId)
    requires Sound(s) && Enabled(s, e) && CancelledIn(s, e, id)
    ensures id in Next(s, e).rows && Ended(Next(s, e).rows[id], Cancelled, None, TimeOf(e))
  {
    assert RowSound(s, id);
  }

  /** The step that decides writes the row. */
  lemma FateIsWritten(ss: seq<State>, es: seq<Step>, k: nat, id: JobId, state: JobState, code: Option<int>)
    requires Run(ss, es) && k < |es| && Fate(ss, es, k, id, state, code) && id in ss[k].rows
    ensures id in ss[k + 1].rows && Ended(ss[k + 1].rows[id], state, code, TimeOf(es[k]))
    ensures state.Terminal()
  {
    RunStep(ss, es, k);
    if CutOff(ss[k], es[k], id) {
      CutOffEnds(ss[k], es[k], id);
    } else if es[k].Cancel? {
      CancelEnds(ss[k], es[k], id);
    } else {
      var j, how :| EndsRun(ss, es, j, k, id, how) && state == StateAfter(how) && code == Some(CodeAfter(how));
      ExitDecides(ss, es, j, k, id, how);
    }
  }

  lemma OthersEndNothing(s: State, e: Step, id: JobId)
    requires Sound(s) && Enabled(s, e) && id in s.rows && id in Next(s, e).rows && !IsTerminal(s, id)
    requires !CancelledIn(s, e, id) && !CutOff(s, e, id)
    requires !(e.Finished? && Executes(s, id))
    ensures !IsTerminal(Next(s, e), id)
  {
    assert RowSound(s, id);
    if ByHandler(e) { HandlersEndNothing(s, e, id); } else { SchedulerEndsNothing(s, e, id); }
  }

  lemma HandlersEndNothing(s: State, e: Step, id: JobId)
    requires Sound(s) && Enabled(s, e) && ByHandler(e) && id in s.rows && id in Next(s, e).rows && !IsTerminal(s, id)
    requires !CancelledIn(s, e, id) && id in s.used
    ensures !IsTerminal(Next(s, e), id)
  {
    if e.Doctor? {
      SoundDoctor(s, e.fix, e.ids, e.minAge, e.alive, e.now);
    } else if !e.Cancel? {
      HandlersMoveNothing(s, e, id);
    }
  }

  lemma SchedulerEndsNothing(s: State, e: Step, id: JobId)
    requires Sound(s) && Enabled(s, e) && !ByHandler(e) && id in s.rows && id in Next(s, e).rows && !IsTerminal(s, id)
    requires !CutOff(s, e, id) && !(e.Finished? && Executes(s, id)) && RowSound(s, id)
    ensures !IsTerminal(Next(s, e), id)
  {
  }

  /** A row that is there has been there since its id was taken. */
  lemma RowWasThere(ss: seq<State>, es: seq<Step>, n: nat, id: JobId)
    requires Run(ss, es) && n < |es| && id in ss[n].used && id in ss[n + 1].rows
    ensures id in ss[n].rows
  {
    RunKept(ss, es, n);
    assert RowMoves(ss[n], ss[n + 1], id);
  }

  lemma {:induction false} RowStays(ss: seq<State>, es: seq<Step>, m: nat, n: nat, id: JobId)
    requires Run(ss, es) && m <= n <= |es| && id in ss[m].used && id in ss[n].rows
    ensures id in ss[m].rows
  {
    if m < n {
      UsedGrows(ss, es, m, n - 1);
      RowWasThere(ss, es, n - 1, id);
      RowStays(ss, es, m, n - 1, id);
    }
  }

  lemma DecidedIsUsed(ss: seq<State>, es: seq<Step>, k: nat, id: JobId, state: JobState, code: Option<int>)
    requires Run(ss, es) && k < |es| && Fate(ss, es, k, id, state, code)
    ensures id in ss[k].used
  {
    RunSound(ss, es, k);
    if id in ss[k].rows { assert RowSound(ss[k], id); }
    if FinishedAs(ss, es, k, id, state, code) {
      var j, how :| EndsRun(ss, es, j, k, id, how) && state == StateAfter(how) && code == Some(CodeAfter(how));
      DrainsUntil(ss, es, j, k, id, how);
    }
  }

  /** Whatever decided it is what its row says, in every later state in which it has a row. */
  lemma FateStays(ss: seq<State>, es: seq<Step>, k: nat, n: nat, id: JobId, state: JobState, code: Option<int>)
    requires Run(ss, es) && k < n <= |es| && Fate(ss, es, k, id, state, code) && id in ss[n].rows
    ensures Ended(ss[n].rows[id], state, code, TimeOf(es[k]))
  {
    DecidedIsUsed(ss, es, k, id, state, code);
    RowStays(ss, es, k, n, id);
    FateIsWritten(ss, es, k, id, state, code);
    TerminalIsForever(ss, es, k + 1, n, id);
  }

  lemma {:induction false} FateOf(ss: seq<State>, es: seq<Step>, n: nat, id: JobId)
    returns (k: nat, state: JobState, code: Option<int>)
    requires Run(ss, es) && n <= |es| && IsTerminal(ss[n], id)
    ensures k < n && Fate(ss, es, k, id, state, code)
  {
    HadItsRow(ss, es, n - 1, id);
    if IsTerminal(ss[n - 1], id) {
      k, state, code := FateOf(ss, es, n - 1, id);
    } else {
      k := n - 1;
      state, code := FateNow(ss, es, k, id);
    }
  }

  lemma HadItsRow(ss: seq<State>, es: seq<Step>, n: nat, id: JobId)
    requires Run(ss, es) && n < |es| && IsTerminal(ss[n + 1], id)
    ensures id in ss[n].rows
  {
    RunKept(ss, es, n);
    assert RowMoves(ss[n], ss[n + 1], id);
  }

  lemma FateNow(ss: seq<State>, es: seq<Step>, k: nat, id: JobId) returns (state: JobState, code: Option<int>)
    requires Run(ss, es) && k < |es| && id in ss[k].rows && !IsTerminal(ss[k], id) && IsTerminal(ss[k + 1], id)
    ensures Fate(ss, es, k, id, state, code)
  {
    if CutOff(ss[k], es[k], id) {
      state, code := Failed, Some(-1);
    } else if es[k].Finished? && Executes(ss[k], id) {
      var j, how := FinishedHasRunEnd(ss, es, k);
      state, code := StateAfter(how), Some(CodeAfter(how));
      assert FinishedAs(ss, es, k, id, state, code);
    } else {
      state, code := Cancelled, None;
      RunStep(ss, es, k);
      if !CancelledIn(ss[k], es[k], id) { OthersEndNothing(ss[k], es[k], id); }
    }
  }

  /** In every state of every run a row says Done, Failed or Cancelled, with this exit code and this finishing
      time, exactly when a step of the run decided so: Done is an exit with 0, and nothing else. */
  lemma FateExactly(ss: seq<State>, es: seq<Step>, n: nat, id: JobId, state: JobState, code: Option<int>, now: Stamp)
    requires Run(ss, es) && n <= |es| && id in ss[n].rows && state.Terminal()
    ensures Ended(ss[n].rows[id], state, code, now)
            <==> exists k: nat :: k < n && Fate(ss, es, k, id, state, code) && TimeOf(es[k]) == now
  {
    if k: nat :| k < n && Fate(ss, es, k, id, state, code) && TimeOf(es[k]) == now {
      FateStays(ss, es, k, n, id, state, code);
    }
    if Ended(ss[n].rows[id], state, code, now) {
      var k, st, c := FateOf(ss, es, n, id);
      FateStays(ss, es, k, n, id, st, c);
      assert Fate(ss, es, k, id, state, code);
    }
  }

  // ---- when it started, and how long it ran --------------------------------------------------------

  predicate Underway(s: State, id: JobId)
  {
    id in s.rows && (s.rows[id].state.Running? || s.rows[id].state.Done?)
  }

  lemma StartIsWritten(s: State, e: Step, id: JobId)
    requires Sound(s) && Enabled(s, e) && !Underway(s, id) && Underway(Next(s, e), id)
    ensures Starts(s, e, id) && Next(s, e).rows[id].started == Some(e.now)
  {
    var t := Next(s, e);
    SoundKept(s, e);
    assert RowMoves(s, t, id);
    assert RowSound(s, id) && RowSound(t, id);
    StartedHere(s, e, id);
    StepStamps(s, e, id);
  }

  lemma StartedHere(s: State, e: Step, id: JobId)
    requires Enabled(s, e) && s.pc == Evicting(id) && Next(s, e).pc.Executing?
    ensures Starts(s, e, id) && Next(s, e).clock == e.now
  {
    if ByHandler(e) { HandlersLeaveScheduler(s, e); }
  }

  lemma HandlersLeaveScheduler(s: State, e: Step)
    requires Enabled(s, e) && ByHandler(e)
    ensures Next(s, e).pc == s.pc
  {
  }

  lemma StartIsKept(s: State, e: Step, id: JobId)
    requires Sound(s) && Enabled(s, e) && Underway(s, id) && Underway(Next(s, e), id)
    ensures Next(s, e).rows[id].started == s.rows[id].started
  {
    var t := Next(s, e);
    SoundKept(s, e);
    assert RowMoves(s, t, id) && RowSound(s, id);
    if t.rows[id].state != s.rows[id].state {
      StepStamps(s, e, id);
    } else if s.rows[id].state.Running? {
      if ByHandler(e) { HandlersKeepStart(s, e, id); } else { SchedulerKeepsStart(s, e, id); }
    }
  }

  lemma SchedulerKeepsStart(s: State, e: Step, id: JobId)
    requires Enabled(s, e) && !ByHandler(e) && id in s.rows && id in Next(s, e).rows
    requires s.rows[id].state.Running? && s.pc.Executing? && s.pc.job == id
    ensures Next(s, e).rows[id].started == s.rows[id].started
  {
  }

  lemma HandlersKeepStart(s: State, e: Step, id: JobId)
    requires Sound(s) && Enabled(s, e) && ByHandler(e) && id in s.rows && id in Next(s, e).rows && id in s.used
    requires s.rows[id].state.Running?
    ensures Next(s, e).rows[id].started == s.rows[id].started
  {
    if e.Doctor? {
      SoundDoctor(s, e.fix, e.ids, e.minAge, e.alive, e.now);
    } else if e.Submit? || e.Retry? {
      NewRowsLeaveOthers(s, e, id);
    }
  }

  lemma NewRowsLeaveOthers(s: State, e: Step, id: JobId)
    requires Enabled(s, e) && (e.Submit? || e.Retry?) && id in s.rows && id in s.used
    ensures id in Next(s, e).rows && Next(s, e).rows[id] == s.rows[id]
  {
  }

  /** A running or done row has the time at which its run was announced as its start. */
  lemma {:induction false} StartOf(ss: seq<State>, es: seq<Step>, n: nat, id: JobId) returns (m: nat)
    requires Run(ss, es) && n <= |es| && Underway(ss[n], id)
    ensures m < n && Starts(ss[m], es[m], id) && ss[n].rows[id].started == Some(es[m].now)
  {
    RunStep(ss, es, n - 1);
    if Underway(ss[n - 1], id) {
      m := StartOf(ss, es, n - 1, id);
      StartIsKept(ss[n - 1], es[n - 1], id);
    } else {
      m := n - 1;
      StartIsWritten(ss[n - 1], es[n - 1], id);
    }
  }

  /** The runtime that later estimates are made from is the time from the start of the job's run to the step
      that finished it, in seconds. */
  lemma RuntimeIsMeasured(ss: seq<State>, es: seq<Step>, n: nat, id: JobId) returns (m: nat, k: nat)
    requires Run(ss, es) && n <= |es| && id in ss[n].rows && ss[n].rows[id].state.Done?
    ensures m < n && Starts(ss[m], es[m], id)
    ensures k < n && FinishedAs(ss, es, k, id, Done, Some(0))
    ensures var r := ss[n].rows[id];
      && r.started.Some? && r.finished.Some?
      && Estimates.Runtime(r) * 1000000.0 == (es[k].now - es[m].now) as real
  {
    m := StartOf(ss, es, n, id);
    var state, code;
    k, state, code := FateOf(ss, es, n, id);
    FateStays(ss, es, k, n, id, state, code);
  }
}
